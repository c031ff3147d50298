/** The event loop that collects an agent's answer (openhands_adapter/runner.py; event shapes in
    openhands_adapter/events.py). The stream is a finite sequence: its end, a transport error and
    the grace timeout all just end it. */
module Collector {
  import opened Prelude
  import Text

  /** Only agent messages and finish actions carry answer text; only state updates carry a status. */
  datatype Body =
    | AgentMessage(text: string)
    | Action(finish: string)
    | Observation
    | StatusUpdate(status: string)
    | Unrelated

  datatype Event = Event(id: Option<string>, body: Body)
  {
    /** A usable event id: a non-empty string. */
    predicate Named() { id.Some? && id.value != "" }

    predicate IsActivity() { body.AgentMessage? || body.Action? || body.Observation? }

    /** `extract_assistant_result_text` */
    function ResultText(): string {
      match body
      case AgentMessage(text) => text
      case Action(finish) => finish
      case _ => ""
    }

    /** `extract_execution_status` */
    function ExecutionStatus(): Option<string> {
      if body.StatusUpdate? then Some(body.status) else None
    }
  }

  predicate TerminalState(status: string) {
    status == "finished" || status == "error" || status == "stuck" || status == "waiting_for_confirmation"
  }

  /** One collection: the stream, the ids known before, whether a terminal status may end it, and
      the test for web pages returned in place of an answer. */
  datatype Feed = Feed(events: seq<Event>, known: set<string>, exitWhenTerminal: bool, looksLikeHtml: string -> bool)
  {
    // ----- what each event means -----

    /** A replayed event: its id is known or was already in the stream. */
    ghost predicate Replayed(k: nat)
      requires k < |events|
    {
      events[k].Named() && (events[k].id.value in known || exists j :: 0 <= j < k && events[j].id == events[k].id)
    }

    ghost predicate Answer(k: nat)
      requires k < |events|
    {
      var text := events[k].ResultText();
      !Replayed(k) && !Text.Blank(text) && !looksLikeHtml(text)
    }

    ghost predicate Terminal(k: nat)
      requires k < |events|
    {
      exitWhenTerminal && !Replayed(k) && events[k].body.StatusUpdate? && TerminalState(events[k].body.status)
    }

    /** Agent activity or a running status. */
    ghost predicate Alive(k: nat)
      requires k < |events|
    {
      !Replayed(k) && (events[k].IsActivity() || events[k].ExecutionStatus() == Some("running"))
    }

    /** A terminal status that counts: not a "finished" from before the agent did anything. */
    ghost predicate Concludes(k: nat)
      requires k < |events|
    {
      Terminal(k) && (events[k].body.status == "finished" ==> exists j :: 0 <= j < k && Alive(j))
    }

    // ----- where the collection ends and with what -----

    ghost predicate Answered(k: nat)
      requires k < |events|
    {
      exists i :: 0 <= i <= k && Answer(i)
    }

    ghost predicate Concluded(k: nat)
      requires k < |events|
    {
      exists j :: 0 <= j <= k && Concludes(j)
    }

    /** Up to event `k` there has been an answer and a terminal status that counts, in either order. */
    ghost predicate Complete(k: nat)
      requires k < |events|
    {
      Answered(k) && Concluded(k)
    }

    /** The first `n` events are the ones looked at: up to the first complete point, else all. */
    ghost predicate LookedAt(n: nat) {
      && n <= |events|
      && (forall k :: 0 <= k < n - 1 ==> !Complete(k))
      && (n < |events| ==> n > 0 && Complete(n - 1))
    }

    ghost function LastAnswer(n: nat): Option<string>
      requires n <= |events|
    {
      if n == 0 then None else if Answer(n - 1) then Some(events[n - 1].ResultText()) else LastAnswer(n - 1)
    }

    ghost function LastStatus(n: nat): Option<string>
      requires n <= |events|
    {
      if n == 0 then None else if Terminal(n - 1) then events[n - 1].ExecutionStatus() else LastStatus(n - 1)
    }

    ghost function SeenIds(n: nat): set<string>
      requires n <= |events|
    {
      known + set j | 0 <= j < n && events[j].Named() :: events[j].id.value
    }
  }

  datatype Result = Result(text: string, status: Option<string>, seen: set<string>)

  /** What a collection that looked at `n` events returns; `fallback` is the text fetched when the
      stream gave none. */
  ghost function ResultAfter(f: Feed, n: nat, fallback: string): Result
    requires n <= |f.events|
  {
    Result(if f.LastAnswer(n).Some? then Text.Strip(f.LastAnswer(n).value) else Text.Strip(fallback),
           f.LastStatus(n), f.SeenIds(n))
  }

  // ----- the loop -----

  /** The loop's variables. */
  datatype Progress = Progress(
    text: Option<string>, status: Option<string>, terminalSeen: bool, activity: bool, running: bool,
    seen: set<string>)

  ghost predicate Reflects(p: Progress, f: Feed, n: nat)
    requires n <= |f.events|
  {
    && p.text == f.LastAnswer(n) && p.status == f.LastStatus(n) && p.seen == f.SeenIds(n)
    && (p.text.Some? <==> exists i :: 0 <= i < n && f.Answer(i))
    && (p.activity || p.running <==> exists j :: 0 <= j < n && f.Alive(j))
    && (p.text.Some? ==> p.activity)
  }

  ghost predicate ReflectsEnd(p: Progress, f: Feed, n: nat)
    requires n <= |f.events|
  {
    p.terminalSeen <==> exists j :: 0 <= j < n && f.Concludes(j)
  }

  /** The body of the loop for one event: the new variables and whether to leave the loop. */
  method HandleEvent(f: Feed, n: nat, p: Progress) returns (q: Progress, leave: bool)
    requires n < |f.events| && Reflects(p, f, n) && ReflectsEnd(p, f, n)
    requires !(p.text.Some? && p.terminalSeen)
    ensures Reflects(q, f, n + 1)
    ensures leave <==> f.Complete(n)
    ensures !leave ==> ReflectsEnd(q, f, n + 1) && !(q.text.Some? && q.terminalSeen)
  {
    hide Feed.Replayed, Feed.SeenIds, Feed.LastAnswer, Feed.LastStatus, Feed.Concludes, Feed.Alive, Feed.Complete,
         Text.Blank, TerminalState;
    if p.terminalSeen { EndNeedsExit(p, f, n); }
    var e := f.events[n];
    SeenMeansReplayed(f, n);
    var seen := p.seen;
    if e.Named() {
      if e.id.value in seen { SkipReflects(p, f, n); return p, false; }
      seen := seen + {e.id.value};
    }
    var activity := p.activity || e.IsActivity();
    var text := p.text;
    leave := false;
    if !Text.Blank(e.ResultText()) && !f.looksLikeHtml(e.ResultText()) {
      text := Some(e.ResultText());
      if p.terminalSeen && f.exitWhenTerminal { leave := true; }
    }
    var status := e.ExecutionStatus();
    var running := p.running || status == Some("running");
    var final, terminalSeen := p.status, p.terminalSeen;
    if f.exitWhenTerminal && status.Some? && TerminalState(status.value) {
      final := status;
      if text.Some? {
        leave := true;
      } else if !(status.value == "finished" && !(running || activity)) {
        terminalSeen := true;
      }
    }
    q := Progress(text, final, terminalSeen, activity, running, seen);
    NewReflects(p, q, f, n);
    NewEnd(p, f, n);
  }

  lemma EndNeedsExit(p: Progress, f: Feed, n: nat)
    requires n <= |f.events| && ReflectsEnd(p, f, n) && p.terminalSeen
    ensures f.exitWhenTerminal
  {
  }

  lemma SeenMeansReplayed(f: Feed, n: nat)
    requires n < |f.events|
    ensures f.Replayed(n) <==> f.events[n].Named() && f.events[n].id.value in f.SeenIds(n)
  {
  }

  lemma SkipReflects(p: Progress, f: Feed, n: nat)
    requires n < |f.events| && Reflects(p, f, n) && f.Replayed(n) && ReflectsEnd(p, f, n)
    requires !(p.text.Some? && p.terminalSeen)
    ensures Reflects(p, f, n + 1) && ReflectsEnd(p, f, n + 1) && !f.Complete(n)
  {
    assert f.events[n].id.value in f.SeenIds(n);
    assert f.SeenIds(n + 1) == f.SeenIds(n);
  }

  lemma SeenGrows(f: Feed, n: nat)
    requires n < |f.events|
    ensures f.SeenIds(n + 1) == f.SeenIds(n) + if f.events[n].Named() then {f.events[n].id.value} else {}
  {
  }

  lemma NewReflects(p: Progress, q: Progress, f: Feed, n: nat)
    requires n < |f.events| && Reflects(p, f, n) && !f.Replayed(n)
    requires q.seen == p.seen + if f.events[n].Named() then {f.events[n].id.value} else {}
    requires q.text == if f.Answer(n) then Some(f.events[n].ResultText()) else p.text
    requires q.status == if f.Terminal(n) then f.events[n].ExecutionStatus() else p.status
    requires q.activity == (p.activity || f.events[n].IsActivity())
    requires q.running == (p.running || f.events[n].ExecutionStatus() == Some("running"))
    ensures Reflects(q, f, n + 1)
  {
    AnswersAreActivity(f, n);
    assert f.Alive(n) <==> f.events[n].IsActivity() || f.events[n].ExecutionStatus() == Some("running");
    hide Feed.SeenIds, Feed.Replayed, Feed.Answer, Feed.Terminal, Feed.Alive;
    SeenGrows(f, n);
  }

  lemma AnswersAreActivity(f: Feed, n: nat)
    requires n < |f.events|
    ensures f.Answer(n) ==> f.events[n].IsActivity()
  {
    assert Text.Blank("");
  }

  /** When the loop has both halves after event `n`. */
  lemma NewEnd(p: Progress, f: Feed, n: nat)
    requires n < |f.events| && Reflects(p, f, n) && ReflectsEnd(p, f, n) && !(p.text.Some? && p.terminalSeen)
    ensures f.Complete(n) <==>
            (f.Answer(n) && p.terminalSeen) || (f.Concludes(n) && (p.text.Some? || f.Answer(n)))
    ensures f.Concludes(n) <==>
            f.Terminal(n) && (f.events[n].body.status == "finished" ==> p.activity || p.running)
    ensures (exists j :: 0 <= j < n + 1 && f.Concludes(j)) <==> p.terminalSeen || f.Concludes(n)
  {
    hide Feed.SeenIds, Feed.Replayed, Feed.Answer, Feed.Terminal, Feed.Alive;
  }

  /** The collection loop, followed by the fallback when no answer came. */
  method Collect(f: Feed, fallback: string) returns (r: Result)
    ensures exists n: nat :: f.LookedAt(n) && r == ResultAfter(f, n, fallback)
  {
    var p := Progress(None, None, false, false, false, f.known);
    var n := 0;
    var leave := false;
    assert f.SeenIds(0) == f.known;
    while n < |f.events| && !leave
      invariant n <= |f.events| && Reflects(p, f, n)
      invariant !leave ==> ReflectsEnd(p, f, n) && !(p.text.Some? && p.terminalSeen)
      invariant leave ==> n > 0
      invariant forall k :: 0 <= k < n - 1 ==> !f.Complete(k)
      invariant n > 0 ==> (f.Complete(n - 1) <==> leave)
      decreases |f.events| - n
    {
      p, leave := HandleEvent(f, n, p);
      n := n + 1;
    }
    r := Result(if p.text.Some? then Text.Strip(p.text.value) else Text.Strip(fallback), p.status, p.seen);
    assert f.LookedAt(n) && r == ResultAfter(f, n, fallback);
  }

  /** The number of events looked at is determined by the stream. */
  lemma LookedAtOnce(f: Feed, n: nat, m: nat)
    requires f.LookedAt(n) && f.LookedAt(m)
    ensures n == m
  {
    hide Feed.Complete;
  }

  // ----- replays change nothing -----

  /** The stream without event `k`. */
  function Without(f: Feed, k: nat): Feed
    requires k < |f.events|
  {
    f.(events := f.events[..k] + f.events[k + 1..])
  }

  /** Where event `i` of the shorter stream was. */
  function Old(k: nat, i: nat): nat {
    if i < k then i else i + 1
  }

  /** Where an event other than `k` is in the shorter stream. */
  function New(k: nat, j: nat): nat {
    if j < k || j == 0 then j else j - 1
  }

  lemma SameEvent(f: Feed, k: nat, i: nat)
    requires k < |f.events| && f.Replayed(k) && i < |f.events| - 1
    ensures var g := Without(f, k);
            && g.events[i] == f.events[Old(k, i)]
            && (g.Replayed(i) <==> f.Replayed(Old(k, i)))
            && (g.Answer(i) <==> f.Answer(Old(k, i))) && (g.Terminal(i) <==> f.Terminal(Old(k, i)))
            && (g.Alive(i) <==> f.Alive(Old(k, i)))
  {
    var g := Without(f, k);
    if f.Replayed(Old(k, i)) && f.events[Old(k, i)].id.value !in f.known {
      var j :| 0 <= j < Old(k, i) && f.events[j].id == f.events[Old(k, i)].id;
      // if the earlier occurrence is event k itself, there is one before it
      var l :| 0 <= l < Old(k, i) && l != k && f.events[l].id == f.events[Old(k, i)].id;
      assert g.events[if l < k then l else l - 1].id == g.events[i].id;
    }
    if g.Replayed(i) && g.events[i].id.value !in g.known {
      var j :| 0 <= j < i && g.events[j].id == g.events[i].id;
      assert f.events[Old(k, j)].id == f.events[Old(k, i)].id;
    }
  }

  lemma SameConclusion(f: Feed, k: nat, i: nat)
    requires k < |f.events| && f.Replayed(k) && i < |f.events| - 1
    ensures Without(f, k).Concludes(i) <==> f.Concludes(Old(k, i))
  {
    var g := Without(f, k);
    SameEvent(f, k, i);
    forall j | 0 <= j < |g.events| ensures g.Alive(j) <==> f.Alive(Old(k, j)) { SameEvent(f, k, j); }
    assert !f.Alive(k);
    hide Feed.Alive, Feed.Replayed, Feed.Terminal, Without;
    if j :| 0 <= j < i && g.Alive(j) { assert f.Alive(Old(k, j)); }
    if j :| 0 <= j < Old(k, i) && f.Alive(j) { assert g.Alive(if j < k then j else j - 1); }
  }

  lemma SameAnswered(f: Feed, k: nat, i: nat)
    requires k < |f.events| && f.Replayed(k) && i < |f.events| - 1
    ensures Without(f, k).Answered(i) <==> f.Answered(Old(k, i))
  {
    var g := Without(f, k);
    assert !f.Answer(k) && |g.events| == |f.events| - 1;
    hide Feed.Answer, Feed.Replayed, Without;
    if f.Answered(Old(k, i)) {
      var a :| 0 <= a <= Old(k, i) && f.Answer(a);
      SameEvent(f, k, New(k, a));
      assert g.Answer(New(k, a));
    }
    if g.Answered(i) {
      var a :| 0 <= a <= i && g.Answer(a);
      SameEvent(f, k, a);
      assert f.Answer(Old(k, a));
    }
  }

  lemma SameConcluded(f: Feed, k: nat, i: nat)
    requires k < |f.events| && f.Replayed(k) && i < |f.events| - 1
    ensures Without(f, k).Concluded(i) <==> f.Concluded(Old(k, i))
  {
    var g := Without(f, k);
    assert !f.Concludes(k);
    hide Feed.Concludes, Feed.Replayed;
    if f.Concluded(Old(k, i)) {
      var e :| 0 <= e <= Old(k, i) && f.Concludes(e);
      SameConclusion(f, k, New(k, e));
      assert g.Concludes(New(k, e));
    }
    if g.Concluded(i) {
      var e :| 0 <= e <= i && g.Concludes(e);
      SameConclusion(f, k, e);
      assert f.Concludes(Old(k, e));
    }
  }

  lemma SameCompletion(f: Feed, k: nat, i: nat)
    requires k < |f.events| && f.Replayed(k) && i < |f.events| - 1
    ensures Without(f, k).Complete(i) <==> f.Complete(Old(k, i))
  {
    hide Feed.Answered, Feed.Concluded, Feed.Replayed;
    SameAnswered(f, k, i);
    SameConcluded(f, k, i);
  }

  /** Both streams agree on what the first events amount to. */
  lemma {:induction false} SamePrefix(f: Feed, k: nat, m: nat)
    requires k < |f.events| && f.Replayed(k) && m < |f.events|
    ensures var g := Without(f, k);
            var n := if m <= k then m else m + 1;
            g.LastAnswer(m) == f.LastAnswer(n) && g.LastStatus(m) == f.LastStatus(n)
            && (m == k ==> g.LastAnswer(m) == f.LastAnswer(k + 1) && g.LastStatus(m) == f.LastStatus(k + 1))
  {
    hide Feed.Answer, Feed.Terminal, Feed.Replayed;
    if m > 0 {
      SamePrefix(f, k, m - 1);
      SameEvent(f, k, m - 1);
    }
    if m == k {
      assert !f.Answer(k) && !f.Terminal(k) by { ReplaysSayNothing(f, k); }
    }
  }

  lemma ReplaysSayNothing(f: Feed, k: nat)
    requires k < |f.events| && f.Replayed(k)
    ensures !f.Answer(k) && !f.Terminal(k)
    ensures f.Complete(k) <==> k > 0 && f.Complete(k - 1)
  {
    assert !f.Answer(k) && !f.Concludes(k);
    hide Feed.Answer, Feed.Concludes, Feed.Terminal, Feed.Replayed;
  }

  lemma SameIds(f: Feed, k: nat, m: nat)
    requires k < |f.events| && f.Replayed(k) && m < |f.events|
    ensures var g := Without(f, k);
            && (m <= k ==> g.SeenIds(m) == f.SeenIds(m))
            && (m >= k ==> g.SeenIds(m) == f.SeenIds(m + 1))
  {
    var g := Without(f, k);
    assert forall j :: 0 <= j < m ==> g.events[j] == f.events[Old(k, j)];
    if m >= k {
      forall id | id in f.SeenIds(m + 1) ensures id in g.SeenIds(m) {
        if id !in f.known {
          var j :| 0 <= j < m + 1 && f.events[j].Named() && f.events[j].id.value == id;
          var l :| 0 <= l < m + 1 && l != k && f.events[l].id == f.events[j].id;
          assert g.events[if l < k then l else l - 1].id.value == id;
        }
      }
      forall id | id in g.SeenIds(m) ensures id in f.SeenIds(m + 1) {
        if id !in f.known {
          var j :| 0 <= j < m && g.events[j].Named() && g.events[j].id.value == id;
          assert f.events[Old(k, j)].id.value == id;
        }
      }
    }
    if m <= k {
      assert forall j :: 0 <= j < m ==> g.events[j] == f.events[j];
    }
  }

  lemma SameEnd(f: Feed, k: nat, n: nat)
    requires k < |f.events| && f.Replayed(k) && f.LookedAt(n)
    ensures Without(f, k).LookedAt(if n <= k then n else n - 1)
  {
    var g := Without(f, k);
    forall i | 0 <= i < |g.events| ensures g.Complete(i) <==> f.Complete(Old(k, i)) { SameCompletion(f, k, i); }
    ReplaysSayNothing(f, k);
    hide Feed.Complete, Feed.Replayed;
  }

  lemma SameResult(f: Feed, g: Feed, n: nat, m: nat, fallback: string)
    requires n <= |f.events| && m <= |g.events|
    requires f.LastAnswer(n) == g.LastAnswer(m) && f.LastStatus(n) == g.LastStatus(m) && f.SeenIds(n) == g.SeenIds(m)
    ensures ResultAfter(f, n, fallback) == ResultAfter(g, m, fallback)
  {
  }

  /** Deleting a replayed event, one whose id is known or occurred earlier, changes neither the
      collected text nor the status nor the set of seen ids. */
  lemma ReplaysChangeNothing(f: Feed, k: nat, n: nat, m: nat, fallback: string)
    requires k < |f.events| && f.Replayed(k)
    requires f.LookedAt(n) && Without(f, k).LookedAt(m)
    ensures ResultAfter(f, n, fallback) == ResultAfter(Without(f, k), m, fallback)
  {
    var g := Without(f, k);
    assert m < |f.events| && n <= |f.events| && m <= |g.events|;
    hide *;
    SameEnd(f, k, n);
    LookedAtOnce(g, m, if n <= k then n else n - 1);
    SamePrefix(f, k, m);
    SameIds(f, k, m);
    SameResult(f, g, n, m, fallback);
  }

  /** A collection that stops before the end of the stream has an answer, and a terminal status
      that came after the agent did something unless it reports trouble. */
  lemma EarlyStopIsJustified(f: Feed, n: nat, fallback: string)
    requires f.LookedAt(n) && n < |f.events|
    ensures f.exitWhenTerminal && f.LastAnswer(n).Some? && f.LastStatus(n).Some?
    ensures exists j :: 0 <= j < n && f.Concludes(j)
    ensures forall j :: 0 <= j < n && f.Concludes(j) && f.events[j].body.status == "finished" ==>
              exists a :: 0 <= a < j && f.Alive(a)
  {
    var i :| 0 <= i <= n - 1 && f.Answer(i);
    var j :| 0 <= j <= n - 1 && f.Concludes(j);
    AnswerIsKept(f, i, n);
    StatusIsKept(f, j, n);
  }

  /** The text that comes out is trimmed, whether answered or fetched. */
  lemma ResultIsTrimmed(f: Feed, n: nat, fallback: string)
    requires n <= |f.events|
    ensures Text.Strip(ResultAfter(f, n, fallback).text) == ResultAfter(f, n, fallback).text
    ensures f.LastAnswer(n).None? ==> ResultAfter(f, n, fallback).text == Text.Strip(fallback)
  {
    Text.StripTwice(fallback);
    if f.LastAnswer(n).Some? { Text.StripTwice(f.LastAnswer(n).value); }
  }

  /** An event without a usable id is never taken for a replay and leaves no trace among the ids. */
  lemma NamelessIsNew(f: Feed, k: nat, n: nat)
    requires k < |f.events| && n <= |f.events|
    ensures f.events[k].id in {None, Some("")} ==> !f.Replayed(k)
    ensures "" in f.SeenIds(n) <==> "" in f.known
  {
  }

  /** Only messages, actions and observations show the agent at work, and a status update only when it
      says running; text comes from messages and finish actions alone. */
  lemma WorkMeans(f: Feed, k: nat)
    requires k < |f.events|
    ensures f.Alive(k) <==>
            !f.Replayed(k) && (f.events[k].body.AgentMessage? || f.events[k].body.Action? || f.events[k].body.Observation?
                               || f.events[k].body == StatusUpdate("running"))
    ensures f.Answer(k) <==>
            !f.Replayed(k) && exists text :: f.events[k].body in {AgentMessage(text), Action(text)}
                                             && !Text.Blank(text) && !f.looksLikeHtml(text)
  {
    assert Text.Blank("");
    hide Feed.Replayed, Text.Blank;
    var text := f.events[k].ResultText();
    if f.Answer(k) { assert f.events[k].body in {AgentMessage(text), Action(text)}; }
  }

  /** Only these four statuses end a collection before its stream does; a stream without them is
      collected to its end. */
  lemma OnlyFourStatusesEnd(f: Feed, n: nat)
    requires f.LookedAt(n)
    ensures n < |f.events| ==>
              exists j :: 0 <= j < n && f.Concludes(j) && f.events[j].body.StatusUpdate?
                          && f.events[j].body.status in {"finished", "error", "stuck", "waiting_for_confirmation"}
    ensures (forall j :: 0 <= j < |f.events| && f.events[j].body.StatusUpdate? ==>
               f.events[j].body.status !in {"finished", "error", "stuck", "waiting_for_confirmation"})
            ==> n == |f.events|
  {
    hide Feed.Answer, Feed.Alive, Feed.Replayed;
    if n < |f.events| {
      var j :| 0 <= j <= n - 1 && f.Concludes(j);
    }
  }

  /** With an answer and one of the four, a finish counting only after the answer, the collection has
      stopped. */
  lemma AnswerAndStatusEnd(f: Feed, n: nat, a: nat, k: nat)
    requires f.LookedAt(n) && f.exitWhenTerminal && a < |f.events| && k < |f.events|
    requires f.Answer(a) && !f.Replayed(k) && f.events[k].body.StatusUpdate?
    requires f.events[k].body.status in {"error", "stuck", "waiting_for_confirmation"}
             || (f.events[k].body.status == "finished" && a < k)
    ensures n <= (if a < k then k else a) + 1
  {
    AnswersAreActivity(f, a);
    var m := if a < k then k else a;
    assert f.Alive(a);
    assert f.Concludes(k);
    assert f.Complete(m);
  }

  lemma {:induction false} AnswerIsKept(f: Feed, i: nat, n: nat)
    requires i < n <= |f.events| && f.Answer(i)
    ensures f.LastAnswer(n).Some?
  {
    hide Feed.Answer;
    if i < n - 1 { AnswerIsKept(f, i, n - 1); }
  }

  lemma {:induction false} StatusIsKept(f: Feed, j: nat, n: nat)
    requires j < n <= |f.events| && f.Terminal(j)
    ensures f.LastStatus(n).Some?
  {
    if j < n - 1 { StatusIsKept(f, j, n - 1); }
  }
}
