/** The bounded duplicate filter in front of the QQ message source. */
module DedupWindow {
  import opened Wrappers

  const DEDUP_CACHE_SIZE: nat := 2048

  /** The last `n` elements of `s`, or all of it when it is shorter. */
  function LastN<T>(s: seq<T>, n: nat): (r: seq<T>)
    ensures |r| == if |s| < n then |s| else n
  {
    if |s| <= n then s else s[|s| - n..]
  }

  /** The keys that count as already seen after `accepted` has been let through. */
  function Window(accepted: seq<string>): seq<string> {
    LastN(accepted, DEDUP_CACHE_SIZE)
  }

  /** One submission to a sliding window, stated without any cache. */
  function Submit(accepted: seq<string>, key: string): seq<string> {
    if key in Window(accepted) then accepted else accepted + [key]
  }

  /** The keys let through when `keys` are submitted in turn. */
  function Accepted(keys: seq<string>): seq<string> {
    if keys == [] then [] else Submit(Accepted(keys[..|keys| - 1]), keys[|keys| - 1])
  }

  /** Two acceptances of one key are more than a window apart. */
  ghost predicate Spaced(accepted: seq<string>) {
    forall i, j :: 0 <= i < j < |accepted| && accepted[i] == accepted[j] ==> j - i - 1 >= DEDUP_CACHE_SIZE
  }

  lemma SubmitKeepsSpacing(accepted: seq<string>, key: string)
    requires Spaced(accepted)
    ensures Spaced(Submit(accepted, key))
  {}

  /** Over any submissions, 2048 other acceptances separate two acceptances of the same key. */
  lemma {:induction false} AcceptancesAreSpaced(keys: seq<string>)
    ensures Spaced(Accepted(keys))
  {
    if keys != [] {
      AcceptancesAreSpaced(keys[..|keys| - 1]);
      SubmitKeepsSpacing(Accepted(keys[..|keys| - 1]), keys[|keys| - 1]);
    }
  }

  ghost predicate Distinct(order: seq<string>) {
    forall i, j :: 0 <= i < j < |order| ==> order[i] != order[j]
  }

  ghost predicate Indexes(seen: set<string>, order: seq<string>) {
    forall k :: k in seen <==> k in order
  }

  lemma DropOldest<T>(s: seq<T>, n: nat)
    requires 0 < n <= |s|
    ensures LastN(s, n)[1..] == LastN(s, n - 1)
  {}

  lemma PopFirst(seen: set<string>, order: seq<string>)
    requires order != [] && Distinct(order) && Indexes(seen, order)
    ensures Distinct(order[1..]) && Indexes(seen - {order[0]}, order[1..])
  {}

  lemma Admit(seen: set<string>, order: seq<string>, before: seq<string>, key: string)
    requires order == Window(before) && Distinct(order) && Indexes(seen, order) && key !in order
    ensures Distinct(order + [key]) && Indexes(seen + {key}, order + [key])
    ensures order + [key] == LastN(before + [key], |order| + 1)
  {}

  lemma AcceptedStep(keys: seq<string>, key: string)
    ensures Accepted(keys + [key]) == Submit(Accepted(keys), key)
  {}

  /** The cache: a set for lookup and a queue for eviction order. `submitted` is its history. */
  class DedupCache {
    var seen: set<string>
    var order: seq<string>
    ghost var submitted: seq<string>

    ghost predicate Valid()
      reads this
    {
      && order == Window(Accepted(submitted))
      && Indexes(seen, order)
      && Distinct(order)
    }

    constructor ()
      ensures Valid() && submitted == []
    {
      seen, order, submitted := {}, [], [];
    }

    /** Reports whether `key` is outside the window, and lets it in when it is. */
    method Insert(key: string) returns (isNew: bool)
      requires Valid()
      modifies this
      ensures Valid()
      ensures submitted == old(submitted) + [key]
      ensures isNew <==> key !in Window(Accepted(old(submitted)))
      ensures order == Window(Submit(Accepted(old(submitted)), key))
    {
      ghost var before := Accepted(submitted);
      ghost var next := before + [key];
      AcceptedStep(submitted, key);
      submitted := submitted + [key];
      if key in seen {
        return false;
      }
      Admit(seen, order, before, key);
      seen := seen + {key};
      order := order + [key];
      while |order| > DEDUP_CACHE_SIZE
        invariant submitted == old(submitted) + [key]
        invariant |Window(next)| <= |order| <= |next| && order == LastN(next, |order|)
        invariant Distinct(order) && Indexes(seen, order)
      {
        PopFirst(seen, order);
        DropOldest(next, |order|);
        var first := order[0];
        order := order[1..];
        seen := seen - {first};
      }
      assert order == Window(next);
      isNew := true;
    }

    /** A message counts as new when both its id and its dispatch id do; the second lookup sees
        the window the first one left behind. */
    method AcceptMessage(messageId: string, dispatchId: Option<string>) returns (isNew: bool)
      requires Valid()
      modifies this
      ensures Valid()
      ensures var afterMessage := Submit(Accepted(old(submitted)), "message:" + messageId);
              isNew <==>
              && "message:" + messageId !in Window(Accepted(old(submitted)))
              && (dispatchId.Some? ==> "dispatch:" + dispatchId.value !in Window(afterMessage))
      ensures submitted == old(submitted) + ["message:" + messageId] +
                           (if dispatchId.Some? then ["dispatch:" + dispatchId.value] else [])
    {
      AcceptedStep(submitted, "message:" + messageId);
      var messageIsNew := Insert("message:" + messageId);
      var dispatchIsNew := true;
      if dispatchId.Some? {
        dispatchIsNew := Insert("dispatch:" + dispatchId.value);
      }
      isNew := messageIsNew && dispatchIsNew;
    }
  }
}
