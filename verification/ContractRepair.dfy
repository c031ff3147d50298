/** The bounded contract-repair loop of the two language-model backends (llm_backend/
    openai_compatible.py, llm_backend/fake.py, contracts/gateway.py). Reading JSON out of an answer
    and validating it against a schema are parameters. */
module ContractRepair {
  import opened Prelude

  /** What the gateway makes of one answer: schema violations can be repaired, an answer without
      JSON is fatal. */
  datatype Verdict<V> = Valid(value: V) | Repairable | Fatal

  /** A value with the number of repairs it took, or the contract violation that is raised. */
  datatype Outcome<V> =
    | Returned(value: V, attempts: nat, repaired: bool)
    | Violation(attempts: nat)
    | NoScript

  type Reader<!P> = string -> Option<P>
  type Validator<!P, !V> = P -> Option<V>

  function Judge<P, V>(read: Reader<P>, validate: Validator<P, V>, text: string): Verdict<V> {
    match read(text)
    case None => Fatal
    case Some(payload) => JudgePayload(validate, payload)
  }

  function JudgePayload<P, V>(validate: Validator<P, V>, payload: P): Verdict<V> {
    match validate(payload)
    case None => Repairable
    case Some(value) => Valid(value)
  }

  // ----- what the loop is for -----

  /** Answer `k` settles the request: every answer before it could be repaired, and it is valid, or
      cannot be repaired, or is the last one allowed. */
  ghost predicate Settles<V(!new)>(verdict: nat -> Verdict<V>, limit: nat, k: nat) {
    k <= limit && RepairableUpTo(verdict, k) && (k == limit || !verdict(k).Repairable?)
  }

  ghost predicate RepairableUpTo<V(!new)>(verdict: nat -> Verdict<V>, k: nat) {
    forall j: nat :: j < k ==> verdict(j).Repairable?
  }

  lemma OneMoreRepairable<V(!new)>(verdict: nat -> Verdict<V>, k: nat)
    requires RepairableUpTo(verdict, k) && verdict(k).Repairable?
    ensures RepairableUpTo(verdict, k + 1)
  {
  }

  lemma NoneYet<V(!new)>(verdict: nat -> Verdict<V>)
    ensures RepairableUpTo(verdict, 0)
  {
  }

  function Settled<V>(v: Verdict<V>, k: nat): Outcome<V> {
    if v.Valid? then Returned(v.value, k, k > 0) else Violation(k)
  }

  lemma SettlesOnce<V(!new)>(verdict: nat -> Verdict<V>, limit: nat, k: nat, l: nat)
    requires Settles(verdict, limit, k) && Settles(verdict, limit, l)
    ensures k == l
  {
    assert k < l ==> verdict(k).Repairable?;
    assert l < k ==> verdict(l).Repairable?;
  }

  function Limit(maxAttempts: int): nat {
    if maxAttempts < 0 then 0 else maxAttempts
  }

  // ----- the remote model -----

  /** The endpoint: its answers, and how many have been asked for. */
  class Endpoint {
    const answers: nat -> string
    var calls: nat

    constructor (answers: nat -> string)
      ensures this.answers == answers && calls == 0
    {
      this.answers, calls := answers, 0;
    }

    method Complete() returns (text: string)
      modifies this
      ensures text == answers(old(calls)) && calls == old(calls) + 1
    {
      text := answers(calls);
      calls := calls + 1;
    }
  }

  function FromCall(answers: nat -> string, first: nat): nat -> string {
    (i: nat) => answers(first + i)
  }

  function Verdicts<P, V>(read: Reader<P>, validate: Validator<P, V>, answers: nat -> string): nat -> Verdict<V> {
    (i: nat) => Judge(read, validate, answers(i))
  }

  /** `OpenAICompatibleLLMBackend.complete_json`: the outcome is that of the answer which settles
      the request, one call is made per answer looked at, and the raw text that is returned is an
      answer that validates to the returned value. */
  method CompleteJson<P, V(!new)>(endpoint: Endpoint, read: Reader<P>, validate: Validator<P, V>, maxAttempts: int)
    returns (r: Outcome<V>, raw: string)
    modifies endpoint
    ensures var asked := FromCall(endpoint.answers, old(endpoint.calls));
            var used := endpoint.calls - old(endpoint.calls);
            && used >= 1 && Settles(Verdicts(read, validate, asked), Limit(maxAttempts), used - 1)
            && r == Settled(Verdicts(read, validate, asked)(used - 1), used - 1)
            && (r.Returned? ==> Judge(read, validate, raw) == Valid(r.value))
  {
    hide Judge, RepairableUpTo;
    ghost var verdict := Verdicts(read, validate, FromCall(endpoint.answers, endpoint.calls));
    assert RepairableUpTo(verdict, 0) by { NoneYet(verdict); }
    ghost var first := endpoint.calls;
    raw := endpoint.Complete();
    var current := Judge(read, validate, raw);
    var attempts := 0;
    while !current.Valid? && attempts < maxAttempts && current.Repairable?
      invariant attempts <= Limit(maxAttempts) && endpoint.calls == first + attempts + 1
      invariant RepairableUpTo(verdict, attempts)
      invariant current == verdict(attempts)
      invariant current.Valid? ==> Judge(read, validate, raw) == current
      decreases maxAttempts - attempts
    {
      OneMoreRepairable(verdict, attempts);
      attempts := attempts + 1;
      var repair := endpoint.Complete();
      current := Judge(read, validate, repair);
      if current.Valid? {
        raw := repair;
        break;
      }
    }
    r := if current.Valid? then Returned(current.value, attempts, attempts > 0) else Violation(attempts);
  }

  /** Where a request settles, in the answers themselves: all before read as JSON and broke the schema;
      a value is returned exactly if the last one reads and validates, with one attempt per repair and
      marked as repaired unless the first answer did; otherwise the last has no JSON or the limit is
      reached. */
  lemma SettledMeans<P, V(!new)>(read: Reader<P>, validate: Validator<P, V>, answers: nat -> string, limit: nat, k: nat)
    requires Settles(Verdicts(read, validate, answers), limit, k)
    ensures forall j: nat :: j < k ==> read(answers(j)).Some? && validate(read(answers(j)).value).None?
    ensures var last, r := read(answers(k)), Settled(Verdicts(read, validate, answers)(k), k);
            && (r.Returned? <==> last.Some? && validate(last.value).Some?)
            && (r.Returned? ==> Some(r.value) == validate(last.value) && r.attempts == k && (r.repaired <==> k != 0))
            && (r.Violation? ==> r.attempts == k && (last.None? || k == limit))
            && !r.NoScript?
  {
    var verdict := Verdicts(read, validate, answers);
    forall j: nat | j < k ensures read(answers(j)).Some? && validate(read(answers(j)).value).None? {
      assert verdict(j).Repairable?;
    }
  }

  // ----- the scripted double -----

  class Script<P> {
    var queue: seq<P>
    const fallback: Option<P>

    constructor (queue: seq<P>, fallback: Option<P>)
      ensures this.queue == queue && this.fallback == fallback
    {
      this.queue, this.fallback := queue, fallback;
    }

    /** `_pop_payload` */
    method Pop() returns (payload: Option<P>)
      modifies this`queue
      ensures payload == First(old(queue), fallback)
      ensures queue == if old(queue) == [] then [] else old(queue)[1..]
    {
      if queue == [] {
        payload := fallback;
      } else {
        payload := Some(queue[0]);
        queue := queue[1..];
      }
    }
  }

  function First<P>(queue: seq<P>, fallback: Option<P>): Option<P> {
    if queue == [] then fallback else Some(queue[0])
  }

  /** What the script offers in order: its queue, or the default payload alone. */
  function Offered<P>(queue: seq<P>, fallback: Option<P>): seq<P> {
    if queue != [] then queue else if fallback.Some? then [fallback.value] else []
  }

  function ScriptVerdicts<P, V>(validate: Validator<P, V>, payloads: seq<P>): nat -> Verdict<V> {
    (i: nat) => if i < |payloads| then JudgePayload(validate, payloads[i]) else Fatal
  }

  /** The script cannot repair more often than it has payloads left. */
  function ScriptLimit(maxAttempts: int, offered: nat): nat
    requires offered > 0
  {
    if Limit(maxAttempts) < offered then Limit(maxAttempts) else offered - 1
  }

  /** Serialising a value and reading it back gives the value. */
  ghost predicate RoundTrips<P, V>(read: Reader<P>, validate: Validator<P, V>, dump: V -> string, value: V) {
    Judge(read, validate, dump(value)) == Valid(value)
  }

  /** `ScriptedLLMBackend.complete_json`: the raw text it returns is the value serialised again, so it
      validates to the value wherever serialising round-trips. */
  method CompleteScripted<P, V(!new)>(script: Script<P>, validate: Validator<P, V>, dump: V -> string,
                                      maxAttempts: int)
    returns (r: Outcome<V>, raw: string)
    modifies script
    ensures r.Returned? ==> raw == dump(r.value)
    ensures r.Returned? ==> forall read: Reader<P> :: RoundTrips(read, validate, dump, r.value) ==>
              Judge(read, validate, raw) == Valid(r.value)
    ensures var offered := Offered(old(script.queue), script.fallback);
            if offered == [] then r == NoScript && script.queue == []
            else exists k: nat ::
              && k < |offered| && Settles(ScriptVerdicts(validate, offered), ScriptLimit(maxAttempts, |offered|), k)
              && r == Settled(ScriptVerdicts(validate, offered)(k), k)
              && script.queue == if old(script.queue) == [] then [] else offered[k + 1..]
  {
    ghost var before := script.queue;
    ghost var offered := Offered(script.queue, script.fallback);
    var payload := script.Pop();
    raw := "";
    if payload.None? { return NoScript, raw; }
    var current := JudgePayload(validate, payload.value);
    var attempts := 0;
    while !current.Valid? && attempts < maxAttempts && script.queue != []
      invariant attempts < |offered| && attempts <= ScriptLimit(maxAttempts, |offered|)
      invariant script.queue == if before == [] then [] else offered[attempts + 1..]
      invariant current == ScriptVerdicts(validate, offered)(attempts)
      invariant forall j: nat :: j < attempts ==> ScriptVerdicts(validate, offered)(j).Repairable?
      decreases maxAttempts - attempts
    {
      attempts := attempts + 1;
      payload := script.Pop();
      current := JudgePayload(validate, payload.value);
    }
    r := if current.Valid? then Returned(current.value, attempts, attempts > 0) else Violation(attempts);
    if current.Valid? { raw := dump(current.value); }
    assert Settles(ScriptVerdicts(validate, offered), ScriptLimit(maxAttempts, |offered|), attempts);
  }

  /** The same for a script: payloads are used up one by one, and it gives up at the limit or with its
      last payload. */
  lemma ScriptSettledMeans<P, V(!new)>(validate: Validator<P, V>, payloads: seq<P>, maxAttempts: int, k: nat)
    requires payloads != [] && Settles(ScriptVerdicts(validate, payloads), ScriptLimit(maxAttempts, |payloads|), k)
    ensures k < |payloads| && forall j: nat :: j < k ==> validate(payloads[j]).None?
    ensures var r := Settled(ScriptVerdicts(validate, payloads)(k), k);
            && (r.Returned? <==> validate(payloads[k]).Some?)
            && (r.Returned? ==> Some(r.value) == validate(payloads[k]) && r.attempts == k && (r.repaired <==> k != 0))
            && (r.Violation? ==> r.attempts == k && (k == |payloads| - 1 || k >= maxAttempts))
            && !r.NoScript?
  {
    var verdict := ScriptVerdicts(validate, payloads);
    forall j: nat | j < k ensures validate(payloads[j]).None? {
      assert verdict(j).Repairable?;
    }
  }

  // ----- the two backends agree -----

  /** On the same readable payloads, at least one more of them than repairs are allowed, both
      backends settle on the same answer and so return or raise the same way. */
  lemma BackendsAgree<P, V(!new)>(read: Reader<P>, validate: Validator<P, V>, answers: nat -> string, payloads: seq<P>,
                                  maxAttempts: int, remote: nat, scripted: nat)
    requires |payloads| > Limit(maxAttempts)
    requires forall i: nat :: i < |payloads| ==> read(answers(i)) == Some(payloads[i])
    requires Settles(Verdicts(read, validate, answers), Limit(maxAttempts), remote)
    requires Settles(ScriptVerdicts(validate, payloads), ScriptLimit(maxAttempts, |payloads|), scripted)
    ensures remote == scripted
    ensures Settled(Verdicts(read, validate, answers)(remote), remote)
            == Settled(ScriptVerdicts(validate, payloads)(scripted), scripted)
  {
    var verdict, other := Verdicts(read, validate, answers), ScriptVerdicts(validate, payloads);
    assert forall i: nat :: i < |payloads| ==> verdict(i) == other(i);
    SettlesOnce(verdict, Limit(maxAttempts), remote, scripted);
  }

  /** With fewer payloads the script gives up early: it returns what the real backend returns
      exactly if it does not have to give up on its last payload. */
  lemma ShortScriptsAgreeIff<P, V(!new)>(read: Reader<P>, validate: Validator<P, V>, answers: nat -> string,
                                         payloads: seq<P>, maxAttempts: int, remote: nat, scripted: nat)
    requires 0 < |payloads| <= Limit(maxAttempts)
    requires forall i: nat :: i < |payloads| ==> read(answers(i)) == Some(payloads[i])
    requires Settles(Verdicts(read, validate, answers), Limit(maxAttempts), remote)
    requires Settles(ScriptVerdicts(validate, payloads), ScriptLimit(maxAttempts, |payloads|), scripted)
    ensures Settled(Verdicts(read, validate, answers)(remote), remote)
            == Settled(ScriptVerdicts(validate, payloads)(scripted), scripted)
            <==> exists i: nat :: i < |payloads| && validate(payloads[i]).Some?
  {
    var verdict, other := Verdicts(read, validate, answers), ScriptVerdicts(validate, payloads);
    var last := |payloads| - 1;
    assert forall i: nat :: i < |payloads| ==> verdict(i) == other(i);
    if other(scripted).Valid? {
      assert validate(payloads[scripted]).Some?;
      SettlesOnce(verdict, Limit(maxAttempts), remote, scripted);
    } else {
      assert other(scripted).Repairable?;
      assert scripted == last;
      assert forall j: nat :: j <= last ==> verdict(j).Repairable?;
      assert forall i: nat :: i < |payloads| ==> verdict(i) == JudgePayload(validate, payloads[i]);
      assert remote > last;
    }
  }

  /** When the request is answered at all: some answer within the limit is valid and every answer
      before it reads as JSON but breaks the schema. */
  lemma ReturnsIff<V(!new)>(verdict: nat -> Verdict<V>, limit: nat, k: nat)
    requires Settles(verdict, limit, k)
    ensures Settled(verdict(k), k).Returned? <==>
            exists i: nat :: i <= limit && verdict(i).Valid? && forall j: nat :: j < i ==> verdict(j).Repairable?
    ensures Settled(verdict(k), k).attempts <= limit
  {
    forall i: nat | i <= limit && verdict(i).Valid? && (forall j: nat :: j < i ==> verdict(j).Repairable?)
      ensures i == k
    {
      SettlesOnce(verdict, limit, i, k);
    }
  }
}
