/** What a whole core hears and sends, read off its trace, and how that divides among its
    calls. */
module Traces {
  import opened Basics
  import opened OutboxModel
  import opened OutboxRefinement
  import opened Session
  import opened CoreModel
  import opened Histories
  import opened Ledger
  import opened Flows
  import opened Chains

  function PostsIn(acts: seq<Act>): seq<Posted> {
    if acts == [] then [] else (if acts[0].Sent? then [acts[0].post] else []) + PostsIn(acts[1..])
  }

  function MessagesIn(acts: seq<Act>): seq<Message> {
    if acts == [] then [] else (if acts[0].Heard? then [acts[0].message] else []) + MessagesIn(acts[1..])
  }

  lemma {:induction false} PostsConcat(a: seq<Act>, b: seq<Act>)
    ensures PostsIn(a + b) == PostsIn(a) + PostsIn(b)
  {
    if a == [] {
      assert a + b == b;
    } else {
      PostsConcat(a[1..], b);
      assert (a + b)[0] == a[0] && (a + b)[1..] == a[1..] + b;
      Regroup(if a[0].Sent? then [a[0].post] else [], PostsIn(a[1..]), PostsIn(b));
    }
  }

  lemma {:induction false} MessagesConcat(a: seq<Act>, b: seq<Act>)
    ensures MessagesIn(a + b) == MessagesIn(a) + MessagesIn(b)
  {
    if a == [] {
      assert a + b == b;
    } else {
      MessagesConcat(a[1..], b);
      assert (a + b)[0] == a[0] && (a + b)[1..] == a[1..] + b;
      Regroup(if a[0].Heard? then [a[0].message] else [], MessagesIn(a[1..]), MessagesIn(b));
    }
  }

  // ------------------------------------------------------ one step of the whole core

  lemma {:induction false} NothingHeard(acts: seq<Act>)
    requires forall i :: 0 <= i < |acts| ==> !acts[i].Heard?
    ensures MessagesIn(acts) == []
  {
    if acts != [] {
      NothingHeard(acts[1..]);
    }
  }

  lemma {:induction false} NothingPosted(acts: seq<Act>)
    requires forall i :: 0 <= i < |acts| ==> !acts[i].Sent?
    ensures PostsIn(acts) == []
  {
    if acts != [] {
      NothingPosted(acts[1..]);
    }
  }

  lemma {:induction false} SendsAreSends(posts: seq<Posted>)
    ensures MessagesIn(Sends(posts)) == [] && PostsIn(Sends(posts)) == posts
  {
    if posts != [] {
      SendsAreSends(posts[1..]);
      assert Sends(posts)[1..] == Sends(posts[1..]);
    }
  }

  lemma HeardAloud(heard: Option<Message>)
    ensures MessagesIn(HeardActs(heard)) == Given(heard)
  {
    if heard.Some? {
      var acts := [Heard(heard.value)];
      assert acts[1..] == [];
      NothingAdded(Given(heard));
    }
  }

  /** A step lengthens the trace, by its message among other acts. */
  lemma StepTrace(k: Setup, s: State, step: Step) returns (more: seq<Act>)
    ensures Apply(k, s, step).trace == s.trace + more && MessagesIn(more) == Given(step.heard)
    ensures !step.event.DrainTo? ==> PostsIn(more) == []
  {
    hide Apply, Mine, PostsIn, MessagesIn;
    var acts := StepActs(k, s, step);
    more := acts + HeardActs(step.heard);
    MessagesConcat(acts, HeardActs(step.heard));
    PostsConcat(acts, HeardActs(step.heard));
    NothingPosted(HeardActs(step.heard));
    HeardAloud(step.heard);
    NothingAdded(Given(step.heard));
  }

  lemma StepActs(k: Setup, s: State, step: Step) returns (acts: seq<Act>)
    ensures Apply(k, s, step).trace == s.trace + (acts + HeardActs(step.heard)) && MessagesIn(acts) == []
    ensures !step.event.DrainTo? ==> PostsIn(acts) == []
  {
    hide Change, Drain, Install;
    if !step.event.Global() {
      acts := Change(k, ViewOf(s, step.event.call), step.event).acts;
      OneInstall(k, s, step);
      ChangeIsQuiet(k, ViewOf(s, step.event.call), step.event);
      NothingHeard(acts);
      NothingPosted(acts);
    } else {
      acts := GlobalActs(s, step.event);
      Regroup(s.trace, acts, HeardActs(step.heard));
      NothingAdded(s.trace);
      if step.event.DrainTo? && s.box.Valid() {
        SendsAreSends(Drain(s.box, step.event.sink).sent);
      } else {
        NothingHeard(acts);
        NothingPosted(acts);
      }
    }
  }

  ghost function GlobalActs(s: State, e: Event): seq<Act>
    requires e.Global()
  {
    match e
    case DrainTo(sink) => if s.box.Valid() then Sends(Drain(s.box, sink).sent) else []
    case EndSession => [Cleared]
    case _ => []
  }

  /** A chain of steps lengthens the trace, and the trace shows what the chain heard; unless
      one of the steps is a drain, nothing was posted. */
  lemma {:induction false} ChainTrace(k: Setup, s: State, t: State, heard: seq<Message>)
    requires Chained(k, s, t, heard)
    ensures |s.trace| <= |t.trace| && t.trace[..|s.trace|] == s.trace
    ensures MessagesIn(t.trace[|s.trace|..]) == heard
    ensures Undrained(t.journal[|s.journal|..]) ==> PostsIn(t.trace[|s.trace|..]) == []
    decreases |t.journal|
  {
    hide Enabled, Apply, CoreModel.Lawful, Replay;
    var n := |s.journal|;
    if |t.journal| == n {
      SameJournal(k, s, t);
    } else {
      var before, step := Previous(k, t);
      ApplyNotes(k, before, step);
      var j := t.journal[n..];
      assert j == before.journal[n..] + [step];
      HeardConcat(before.journal[n..], [step]);
      HeardAlone(step);
      ChainTrace(k, s, before, HeardIn(before.journal[n..]));
      var more := StepTrace(k, before, step);
      var m := |s.trace|;
      assert t.trace[m..] == before.trace[m..] + more && t.trace[..m] == before.trace[..m];
      MessagesConcat(before.trace[m..], more);
      PostsConcat(before.trace[m..], more);
      assert j[|j| - 1] == step && forall i :: 0 <= i < |j| - 1 ==> before.journal[n..][i] == j[i];
    }
  }

  lemma SameJournal(k: Setup, s: State, t: State)
    requires |t.journal| == |s.journal| && Chained(k, s, t, HeardIn(t.journal[|s.journal|..]))
    ensures s == t && HeardIn(t.journal[|s.journal|..]) == []
  {
    hide Replay, CoreModel.Lawful;
    assert t.journal[..|s.journal|] == t.journal;
  }

  lemma HeardAlone(step: Step)
    ensures HeardIn([step]) == Given(step.heard)
  {
    assert [step][1..] == [] && HeardIn([step]) == Given(step.heard) + HeardIn([]);
    NothingAdded(Given(step.heard));
  }

  // -------------------------------------------------------------- one call's part

  /** The messages that name a call. */
  function About(messages: seq<Message>, c: u32): seq<Message> {
    if messages == [] then []
    else (if messages[0].Call() == c then [messages[0]] else []) + About(messages[1..], c)
  }

  lemma {:induction false} AboutConcat(a: seq<Message>, b: seq<Message>, c: u32)
    ensures About(a + b, c) == About(a, c) + About(b, c)
  {
    if a == [] {
      assert a + b == b;
    } else {
      AboutConcat(a[1..], b, c);
      assert (a + b)[0] == a[0] && (a + b)[1..] == a[1..] + b;
      Regroup(if a[0].Call() == c then [a[0]] else [], About(a[1..], c), About(b, c));
    }
  }

  /** The frames that bear a call's id. */
  function Under(frames: seq<Outgoing>, c: u32): seq<Outgoing> {
    if frames == [] then []
    else (if frames[0].header.call == c then [frames[0]] else []) + Under(frames[1..], c)
  }

  function FramesOf(posts: seq<Posted>): seq<Outgoing> {
    if posts == [] then [] else [posts[0].frame] + FramesOf(posts[1..])
  }

  /** A call's ledger holds exactly its part of what the core heard and sent. */
  lemma {:induction false} FlowShare(l: Flow, acts: seq<Act>, c: u32)
    ensures Fold(Note, l, Mine(acts, c)).heard == l.heard + About(MessagesIn(acts), c)
    ensures Fold(Note, l, Mine(acts, c)).sent == l.sent + Of(PostsIn(acts), c)
    decreases |acts|
  {
    NothingAdded(l.heard);
    NothingAdded(l.sent);
    if acts != [] {
      var a, rest := acts[0], acts[1..];
      var l1 := Fold(Note, l, Mine([a], c));
      ActShare(l, a, c);
      FlowShare(l1, rest, c);
      assert acts == [a] + rest;
      MineConcat([a], rest, c);
      FoldConcat(Note, l, Mine([a], c), Mine(rest, c));
      MessagesConcat([a], rest);
      AboutConcat(MessagesIn([a]), MessagesIn(rest), c);
      PostsConcat([a], rest);
      OfConcat(PostsIn([a]), PostsIn(rest), c);
      Regroup(l.heard, About(MessagesIn([a]), c), About(MessagesIn(rest), c));
      Regroup(l.sent, Of(PostsIn([a]), c), Of(PostsIn(rest), c));
    }
  }

  lemma ActShare(l: Flow, a: Act, c: u32)
    ensures Fold(Note, l, Mine([a], c)).heard == l.heard + About(MessagesIn([a]), c)
    ensures Fold(Note, l, Mine([a], c)).sent == l.sent + Of(PostsIn([a]), c)
  {
    assert [a][1..] == [];
    NothingAdded(l.heard);
    NothingAdded(l.sent);
    assert Mine([a], c) == if Concerns(a, c) then [a] else [];
    FoldFew(Note, l, [], Mine([a], c));
    NothingAdded(Mine([a], c));
    if a.Heard? {
      assert MessagesIn([a]) == [a.message] && [a.message][1..] == [];
    } else if a.Sent? {
      assert PostsIn([a]) == [a.post] && [a.post][1..] == [];
    }
  }

  /** Every frame a core ever sent bears the id of the call whose queue it came from. */
  lemma PostsLabelled(k: Setup, s: State, i: nat)
    requires Reachable(k, s) && i < |PostsIn(s.trace)|
    ensures PostsIn(s.trace)[i].frame.header.call == PostsIn(s.trace)[i].call
  {
    hide Reachable;
    var p := PostsIn(s.trace)[i];
    FlowsLabelled(k, s, p.call);
    FlowShare(DRY, s.trace, p.call);
    NothingAdded(Of(PostsIn(s.trace), p.call));
    var j := OfHas(PostsIn(s.trace), i);
  }

  lemma FlowsLabelled(k: Setup, s: State, c: u32)
    requires Reachable(k, s)
    ensures AllFitting(k, c, FlowOf(History(s, c)).sent)
  {
    hide Reachable, Fitting;
    FlowingAlways(k, s, c);
  }

  lemma {:induction false} OfHas(posts: seq<Posted>, i: nat) returns (j: nat)
    requires i < |posts|
    ensures j < |Of(posts, posts[i].call)| && Of(posts, posts[i].call)[j] == posts[i].frame
  {
    if i == 0 {
      j := 0;
    } else {
      var n := OfHas(posts[1..], i - 1);
      j := if posts[0].call == posts[i].call then n + 1 else n;
    }
  }

  /** So a call's share of the posts is the frames under its id. */
  lemma {:induction false} OfIsUnder(posts: seq<Posted>, c: u32)
    requires forall i :: 0 <= i < |posts| ==> posts[i].frame.header.call == posts[i].call
    ensures Of(posts, c) == Under(FramesOf(posts), c)
  {
    if posts != [] {
      OfIsUnder(posts[1..], c);
      var f := FramesOf(posts);
      assert f[1..] == FramesOf(posts[1..]);
    }
  }

  /** What a call heard and sent, as a part of what its core heard and sent. */
  lemma CallShare(k: Setup, s: State, c: u32)
    requires Reachable(k, s)
    ensures FlowOf(History(s, c)).heard == About(MessagesIn(s.trace), c)
    ensures FlowOf(History(s, c)).sent == Under(FramesOf(PostsIn(s.trace)), c)
  {
    hide Reachable;
    FlowShare(DRY, s.trace, c);
    NothingAdded(About(MessagesIn(s.trace), c));
    NothingAdded(Of(PostsIn(s.trace), c));
    forall i | 0 <= i < |PostsIn(s.trace)|
      ensures PostsIn(s.trace)[i].frame.header.call == PostsIn(s.trace)[i].call
    {
      PostsLabelled(k, s, i);
    }
    OfIsUnder(PostsIn(s.trace), c);
  }

  // --------------------------------------------------------------- as time goes on

  /** A ledger only grows, and opening is what makes it early. */
  ghost predicate Grows(l: Flow, m: Flow) {
    && l.opens <= m.opens
    && l.heard <= m.heard
    && (m.early ==> l.early || (m.opens > l.opens && m.heard != []))
    && (l.early ==> m.early)
  }

  lemma {:induction false} FlowGrows(l: Flow, acts: seq<Act>)
    ensures Grows(l, Fold(Note, l, acts))
    decreases |acts|
  {
    if acts != [] {
      FlowGrows(Note(l, acts[0]), acts[1..]);
      NoteGrows(l, acts[0]);
    }
  }

  lemma NoteGrows(l: Flow, a: Act)
    ensures Grows(l, Note(l, a))
  {
  }

  lemma HistoryGrows(s: State, t: State, c: u32)
    requires |s.trace| <= |t.trace| && t.trace[..|s.trace|] == s.trace
    ensures Grows(FlowOf(History(s, c)), FlowOf(History(t, c)))
  {
    hide Grows;
    var more := t.trace[|s.trace|..];
    assert t.trace == s.trace + more;
    MineConcat(s.trace, more, c);
    FoldConcat(Note, DRY, History(s, c), Mine(more, c));
    FlowGrows(FlowOf(History(s, c)), Mine(more, c));
  }
}
