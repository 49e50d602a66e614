/** What a peer that is a core itself spares its peer: no id is heard of before it is
    opened, so the caller's frame order holds of every call made once, and a call is made
    once as long as its core has not gone through all ids of its parity. */
module Conforming {
  import opened Basics
  import opened CallIds
  import opened Session
  import opened CoreModel
  import opened Histories
  import opened Duplex
  import Grammar
  import CleanIds
  import Incarnations

  /** Ids do not come round within the first 2^31 probes. */
  lemma MadeOnce(duo: Duo, run: seq<Sys>, i: nat, c: u32)
    requires duo.Agreed() && Run(duo, run) && i < |run| && run[i].a.probes <= PARITY_IDS
    ensures AtA(run[i], c).opens <= 1
  {
    hide Run, Reachable, Undoes, Carried;
    SoundAlways(duo, run, i);
    Incarnations.EachIdOnce(duo.a, run[i].a, c);
  }

  /** Towards a core as peer, every call made once keeps the caller's grammar; its REQUEST
      heads the queue until it is accepted, and abandoning it until then emits nothing. */
  lemma OrderKept(duo: Duo, run: seq<Sys>, i: nat, c: u32, status: Status)
    requires duo.Agreed() && Run(duo, run) && i < |run| && duo.a.Own(c)
    requires AtA(run[i], c).opens <= 1
    ensures var s, stage := run[i].a, Grammar.WiresOf(History(run[i].a, c)).stage;
            && stage != Grammar.Wrong
            && (c in s.pending ==>
                  && (stage == Grammar.Asked <==> s.box.OpensWithRequest(c))
                  && (Apply(duo.a, s, Step(Abandon(c, status), None)).box.Queue(c) == [] <==> stage == Grammar.Asked))
  {
    hide Run, Reachable, Undoes, Carried, Fold, Apply;
    SoundAlways(duo, run, i);
    CausalAlways(duo, run, i, c);
    CleanIds.UnheardIsHarmless(duo.a, run[i].a, c);
    CleanIds.GrammarOnce(duo.a, run[i].a, c, status);
  }
}
