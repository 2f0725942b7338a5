/**
 * The running minimum that the possession assigners, the ball selectors and
 * the team assigners compute: start from "infinity", walk the candidates in
 * order and take a candidate only when its value is STRICTLY below the best so
 * far. The result is the first position that holds the smallest value.
 * Entries that are `None` are candidates the loop skips.
 */
module ArgMin {
  import opened Common

  /** Position of the first smallest present entry, or `None` if none is present. */
  function FirstMin(ds: seq<Option<real>>): (r: Option<nat>)
    ensures r.Some? ==> r.value < |ds| && ds[r.value].Some?
  {
    if ds == [] then None
    else
      var prev := FirstMin(ds[..|ds| - 1]);
      var last := ds[|ds| - 1];
      if last.Some? && (prev.None? || last.value < ds[prev.value].value) then Some(|ds| - 1)
      else prev
  }

  /** `k` holds a smallest present value, and every earlier present value is strictly larger. */
  predicate IsFirstMin(ds: seq<Option<real>>, k: nat)
  {
    && k < |ds|
    && ds[k].Some?
    && (forall j :: 0 <= j < |ds| && ds[j].Some? ==> ds[k].value <= ds[j].value)
    && (forall j :: 0 <= j < k && ds[j].Some? ==> ds[k].value < ds[j].value)
  }

  /** The strict running minimum finds nothing exactly when every entry is absent. */
  lemma {:induction false} FirstMinNone(ds: seq<Option<real>>)
    ensures FirstMin(ds).None? <==> forall j :: 0 <= j < |ds| ==> ds[j].None?
  {
    if ds != [] {
      var pre := ds[..|ds| - 1];
      FirstMinNone(pre);
      assert forall j :: 0 <= j < |pre| ==> pre[j] == ds[j];
    }
  }

  /** What the loop finds is a first smallest entry. */
  lemma {:induction false} FirstMinSound(ds: seq<Option<real>>)
    ensures FirstMin(ds).Some? ==> IsFirstMin(ds, FirstMin(ds).value)
  {
    if ds != [] {
      var n := |ds|;
      var pre := ds[..n - 1];
      assert forall j :: 0 <= j < n - 1 ==> pre[j] == ds[j];
      FirstMinSound(pre);
      FirstMinNone(pre);
    }
  }

  /** A list has at most one first smallest entry. */
  lemma FirstMinUnique(ds: seq<Option<real>>, k1: nat, k2: nat)
    requires IsFirstMin(ds, k1) && IsFirstMin(ds, k2)
    ensures k1 == k2
  {
  }

  /** The running minimum returns `k` exactly when `k` is the first smallest entry. */
  lemma FirstMinIff(ds: seq<Option<real>>, k: nat)
    ensures FirstMin(ds) == Some(k) <==> IsFirstMin(ds, k)
  {
    FirstMinSound(ds);
    if IsFirstMin(ds, k) {
      FirstMinNone(ds);
      FirstMinUnique(ds, k, FirstMin(ds).value);
    }
  }

  /** Appending entries the loop skips does not change its result. */
  lemma {:induction false} FirstMinAppendAbsent(ds: seq<Option<real>>, es: seq<Option<real>>)
    requires forall j :: 0 <= j < |es| ==> es[j].None?
    ensures FirstMin(ds + es) == FirstMin(ds)
  {
    if es != [] {
      var front := es[..|es| - 1];
      assert (ds + es)[..|ds + es| - 1] == ds + front;
      assert (ds + es)[|ds + es| - 1] == es[|es| - 1];
      FirstMinAppendAbsent(ds, front);
    } else {
      assert ds + es == ds;
    }
  }
}
