/**
 * Leak detection in `reset`: the objects that still reference a context
 * after collection, and the diagnostic message that enumerates them.
 *
 * Reachability is not scanned: the live Endpoints and Listeners are an
 * explicit registry of holders, each naming the context it references.
 */
module Leak {

  /** Identity of a native application context. */
  type Token = nat

  datatype HolderKind = EndpointHolder | ListenerHolder

  /**
   * A live Endpoint or Listener referencing the context `ctx`; `text` is
   * what `"%s" % o` renders it as.
   */
  datatype Holder = Holder(kind: HolderKind, id: nat, ctx: Token, text: string)

  /** The holders that reference `ctx`, in registry order, each as often as it is registered. */
  function Referrers(holders: seq<Holder>, ctx: Token): (r: seq<Holder>)
    ensures |r| <= |holders|
    ensures forall h :: h in r <==> h in holders && h.ctx == ctx
    ensures forall h :: multiset(r)[h] == (if h.ctx == ctx then multiset(holders)[h] else 0)
  {
    if holders == [] then []
    else
      assert holders == [holders[0]] + holders[1..];
      (if holders[0].ctx == ctx then [holders[0]] else []) + Referrers(holders[1..], ctx)
  }

  /** No referrers exactly when no holder names `ctx`. */
  lemma NoReferrers(holders: seq<Holder>, ctx: Token)
    ensures Referrers(holders, ctx) == [] <==> forall h :: h in holders ==> h.ctx != ctx
  {
  }

  const LeakHeader: string :=
    "Trying to reset UCX but not all Endpoints and/or Listeners "
    + "are closed(). The following objects are still referencing "
    + "ApplicationContext: "

  /** The line appended to the message for one referrer. */
  function Line(h: Holder): string
  {
    "\n  " + h.text
  }

  /** The lines for `hs`, appended in order. */
  function Lines(hs: seq<Holder>): string
    decreases |hs|
  {
    if hs == [] then "" else Lines(hs[..|hs| - 1]) + Line(hs[|hs| - 1])
  }

  function LeakMessage(referrers: seq<Holder>): string
  {
    LeakHeader + Lines(referrers)
  }

  /** Builds the leak message the way `reset` does, one referrer per iteration. */
  method BuildLeakMessage(referrers: seq<Holder>) returns (msg: string)
    ensures msg == LeakMessage(referrers)
  {
    msg := LeakHeader;
    var i := 0;
    while i < |referrers|
      invariant 0 <= i <= |referrers|
      invariant msg == LeakHeader + Lines(referrers[..i])
    {
      assert referrers[..i + 1][..i] == referrers[..i];
      msg := msg + "\n  " + referrers[i].text;
      i := i + 1;
    }
    assert referrers[..i] == referrers;
  }

  /** The lines of a prefix of `hs` are a prefix of the lines of `hs`. */
  lemma {:induction false} LinesPrefix(hs: seq<Holder>, k: nat)
    requires k <= |hs|
    ensures Lines(hs[..k]) <= Lines(hs)
    decreases |hs|
  {
    if k < |hs| {
      var front := hs[..|hs| - 1];
      assert front[..k] == hs[..k];
      LinesPrefix(front, k);
    } else {
      assert hs[..k] == hs;
    }
  }

  /**
   * The message names every referrer: the line of the `i`-th referrer
   * stands in the message right after the lines of the ones before it.
   */
  lemma LeakMessageListsEach(referrers: seq<Holder>, i: nat)
    requires i < |referrers|
    ensures var start := |LeakHeader| + |Lines(referrers[..i])|;
      && start + |Line(referrers[i])| <= |LeakMessage(referrers)|
      && LeakMessage(referrers)[start .. start + |Line(referrers[i])|] == Line(referrers[i])
  {
    var upTo := referrers[..i + 1];
    assert upTo[..|upTo| - 1] == referrers[..i];
    assert Lines(upTo) == Lines(referrers[..i]) + Line(referrers[i]);
    LinesPrefix(referrers, i + 1);
  }

  /** The number of line breaks in `s`. */
  function LineBreaks(s: string): nat
  {
    if s == [] then 0 else (if s[0] == '\n' then 1 else 0) + LineBreaks(s[1..])
  }

  lemma {:induction false} LineBreaksAppend(a: string, b: string)
    ensures LineBreaks(a + b) == LineBreaks(a) + LineBreaks(b)
  {
    if a == [] {
      assert a + b == b;
    } else {
      assert (a + b)[0] == a[0];
      assert (a + b)[1..] == a[1..] + b;
      LineBreaksAppend(a[1..], b);
    }
  }

  lemma {:induction false} NoLineBreaks(s: string)
    requires '\n' !in s
    ensures LineBreaks(s) == 0
  {
    if s != [] {
      assert s[0] != '\n';
      assert forall c :: c in s[1..] ==> c in s;
      NoLineBreaks(s[1..]);
    }
  }

  /**
   * When no referrer renders with a line break, the message adds exactly
   * one line per referrer to the header.
   */
  lemma {:induction false} LeakMessageLineCount(referrers: seq<Holder>)
    requires forall h :: h in referrers ==> '\n' !in h.text
    ensures LineBreaks(LeakMessage(referrers)) == LineBreaks(LeakHeader) + |referrers|
  {
    LineBreaksAppend(LeakHeader, Lines(referrers));
    LinesLineCount(referrers);
  }

  lemma {:induction false} LinesLineCount(hs: seq<Holder>)
    requires forall h :: h in hs ==> '\n' !in h.text
    ensures LineBreaks(Lines(hs)) == |hs|
    decreases |hs|
  {
    if hs != [] {
      var front, last := hs[..|hs| - 1], hs[|hs| - 1];
      assert forall h :: h in front ==> h in hs;
      LinesLineCount(front);
      LineBreaksAppend(Lines(front), Line(last));
      LineBreaksAppend("\n  ", last.text);
      NoLineBreaks(last.text);
      assert LineBreaks("\n  ") == 1;
    }
  }
}
