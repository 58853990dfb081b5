/** Values shared by every script model: optional values, Python exceptions and
    the way a script run ends. */
module Results {

  datatype Option<+T> = None | Some(value: T)

  /** The scripts' floating-point numbers (box coordinates, transform
      shapes, weights). They are only copied, never computed with. */
  type Num = real

  /** The Python exceptions the scripts can raise, by class. */
  datatype Error =
    | KeyError(key: string)              // a dictionary lookup of a missing key
    | ValueError                         // Path.relative_to on a path outside the base
    | FileNotFoundError                  // find_dockstream found no candidate
    | CalledProcessError(cmd: string)    // a checked subprocess exited with a non-zero code

  datatype Result<+T> = Ok(value: T) | Err(error: Error)

  /** How a script or one of its steps ends: normally, by an uncaught
      exception, or by an explicit `sys.exit(code)`. */
  datatype Outcome = Completed | Raised(error: Error) | Exited(code: int)

  /** An insertion-ordered Python dict: a sequence of (key, value) entries
      whose keys are pairwise distinct. */
  predicate DistinctKeys<V>(d: seq<(string, V)>) {
    forall i, j :: 0 <= i < j < |d| ==> d[i].0 != d[j].0
  }

  type Dict<V> = d: seq<(string, V)> | DistinctKeys(d) witness []

  /** `d[k]` on an ordered dict; None stands for the KeyError. */
  function Get<V>(d: seq<(string, V)>, k: string): (r: Option<V>)
    ensures r.None? <==> forall i :: 0 <= i < |d| ==> d[i].0 != k
    ensures r.Some? ==> exists i :: 0 <= i < |d| && d[i] == (k, r.value)
  {
    if d == [] then None
    else if d[0].0 == k then Some(d[0].1)
    else
      var r := Get(d[1..], k);
      assert r.Some? ==> exists i :: 0 <= i < |d[1..]| && d[1..][i] == (k, r.value);
      assert r.Some? ==> exists i :: 1 <= i < |d| && d[i] == (k, r.value);
      r
  }

  /** Collecting a list of results in order: all the values when every
      result is `Ok`, otherwise the error of the first one that is not (the
      loop that builds a list and stops at the first exception). */
  function Collect<T>(rs: seq<Result<T>>): Result<seq<T>> {
    if rs == [] then Ok([])
    else
      var init := Collect(rs[..|rs| - 1]);
      if init.Err? then init
      else if rs[|rs| - 1].Err? then Err(rs[|rs| - 1].error)
      else Ok(init.value + [rs[|rs| - 1].value])
  }

  /** Collecting one more result: the prefix's values extended by it, or
      the first error. */
  lemma CollectStep<T>(rs: seq<Result<T>>, i: int)
    requires 0 <= i < |rs|
    ensures Collect(rs[..i + 1]) ==
      if Collect(rs[..i]).Err? then Collect(rs[..i])
      else if rs[i].Err? then Err(rs[i].error)
      else Ok(Collect(rs[..i]).value + [rs[i].value])
  {
    assert rs[..i + 1][..i] == rs[..i];
  }

  /** `rs[i]` is the first result of `rs` that is an error. */
  predicate FirstErr<T>(rs: seq<Result<T>>, i: int) {
    0 <= i < |rs| && rs[i].Err? && forall j :: 0 <= j < i ==> rs[j].Ok?
  }

  lemma {:induction false} CollectSpec<T>(rs: seq<Result<T>>)
    ensures Collect(rs).Ok? <==> forall i :: 0 <= i < |rs| ==> rs[i].Ok?
    ensures Collect(rs).Ok? ==>
      |Collect(rs).value| == |rs| && forall i :: 0 <= i < |rs| ==> rs[i] == Ok(Collect(rs).value[i])
    ensures Collect(rs).Err? ==> exists i :: FirstErr(rs, i) && rs[i].error == Collect(rs).error
  {
    if rs != [] {
      var last := |rs| - 1;
      var init := rs[..last];
      CollectSpec(init);
      assert forall j :: 0 <= j < last ==> rs[j] == init[j];
      if Collect(init).Err? {
        var i :| FirstErr(init, i) && init[i].error == Collect(init).error;
        assert FirstErr(rs, i);
      } else if rs[last].Err? {
        assert FirstErr(rs, last);
      }
    }
  }

  /** Once an error occurs, later results do not change the outcome. */
  lemma {:induction false} CollectErrorStays<T>(rs: seq<Result<T>>, k: nat)
    requires k <= |rs| && Collect(rs[..k]).Err?
    ensures Collect(rs) == Collect(rs[..k])
    decreases |rs| - k
  {
    if k < |rs| {
      assert rs[..k + 1][..k] == rs[..k];
      CollectErrorStays(rs, k + 1);
    } else {
      assert rs[..k] == rs;
    }
  }
}
