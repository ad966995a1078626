/** The ACME manager's retry reservation: the durable retry record, the attempts that read and write it,
    and the kills, restarts and failed writes that may fall between any two of its steps. */
module AcmeRetry {
  import opened Text

  type Time = int               // nanoseconds; ZERO_TIME is Go's zero time.Time
  const ZERO_TIME: Time := 0
  const SECOND: int := 1_000_000_000
  const MINUTE: int := 60 * SECOND
  const HOUR: int := 60 * MINUTE
  const ATTEMPT_TIMEOUT: int := 5 * MINUTE
  const DNS_ATTEMPT_TIMEOUT: int := HOUR + 2 * ATTEMPT_TIMEOUT
  const MAX_FAILURES: int := 64

  function Max(a: Time, b: Time): Time { if a < b then b else a }
  function Min(a: Time, b: Time): Time { if a < b then a else b }

  // ----- backoff -----

  function Shift(k: nat): nat { if k == 0 then 1 else 2 * Shift(k - 1) }

  /** The backoff before its jitter: a minute, doubling with each failure, an hour at most. */
  function Base(count: int): int {
    Min(MINUTE * Shift(Min(Max(count - 1, 0), 6)), HOUR)
  }

  function Backoff(count: int, jitter: int): int { Base(count) + jitter }

  predicate IsJitter(j: int) { 0 <= j < 15 * SECOND }

  lemma BackoffBounds(count: int, jitter: int)
    requires IsJitter(jitter)
    ensures MINUTE <= Backoff(count, jitter) < HOUR + 15 * SECOND
    ensures count >= 7 ==> Base(count) == HOUR
    ensures Base(count) <= Base(count + 1) && (1 <= count <= 5 ==> Base(count + 1) == 2 * Base(count))
  {
    assert Shift(0) == 1 && Shift(1) == 2 && Shift(2) == 4 && Shift(3) == 8;
    assert Shift(4) == 16 && Shift(5) == 32 && Shift(6) == 64;
    var k := Min(Max(count - 1, 0), 6);
    assert k == 0 || k == 1 || k == 2 || k == 3 || k == 4 || k == 5 || k == 6;
  }

  // ----- Retry-After -----

  const MAX_UINT64: nat := 0xffff_ffff_ffff_ffff
  const MAX_INT64: int := 0x7fff_ffff_ffff_ffff
  const CENTURY_SECONDS: nat := 100 * 365 * 24 * 3600

  predicate IsDigit(c: char) { '0' <= c <= '9' }
  predicate AllDigits(s: string) { forall i :: 0 <= i < |s| ==> IsDigit(s[i]) }

  function DecimalValue(s: string): nat
    requires AllDigits(s)
  {
    if s == [] then 0 else 10 * DecimalValue(s[..|s| - 1]) + (s[|s| - 1] as int - '0' as int)
  }

  /** strconv.ParseUint(s, 10, 64) of a digit string: None when it is out of range. */
  function ParseUint(s: string): Option<nat>
    requires AllDigits(s)
  {
    if DecimalValue(s) > MAX_UINT64 then None else Some(DecimalValue(s))
  }

  /** time.Duration(n) * time.Second in int64 arithmetic. */
  function DurationOfSeconds(n: nat): (d: int)
    requires n <= CENTURY_SECONDS
    ensures d == n * SECOND && 0 <= d <= MAX_INT64
  {
    n * SECOND
  }

  /** The response's cooldown: `date` is the HTTP-date reading of the value, `never` is 9999-12-31. */
  method RetryAfter(value: string, date: Option<Time>, never: Time, now: Time) returns (next: Time)
    ensures value != "" && AllDigits(value) ==>
              next == if DecimalValue(value) <= CENTURY_SECONDS then now + DecimalValue(value) * SECOND else never
    ensures !(value != "" && AllDigits(value)) ==>
              next == if date.Some? && date.value > now then date.value else ZERO_TIME
  {
    var digits := value != "";
    for i := 0 to |value|
      invariant digits <==> value != "" && AllDigits(value[..i])
    {
      assert value[..i + 1] == value[..i] + [value[i]];
      if !IsDigit(value[i]) {
        assert !AllDigits(value);
        digits := false;
        break;
      }
    }
    assert value[..|value|] == value;
    if digits {
      var n := ParseUint(value);
      if n.None? || n.value > CENTURY_SECONDS { return never; }
      return now + DurationOfSeconds(n.value);
    }
    if date.Some? && date.value > now { return date.value; }
    return ZERO_TIME;
  }

  // ----- problems -----

  const DNS_CODES: set<string> := {"dns_provider_configuration_failed", "dns_provider_unsupported", "dns_worker_failed",
                                   "dns_present_failed", "dns_cleanup_failed", "dns_propagation_timeout"}

  predicate SafeProblem(s: string) {
    s in DNS_CODES + {"", "issuance_interrupted", "certificate_invalid", "storage_failed", "cancelled", "timeout",
                      "rate_limited", "action_required", "authorization_failed", "account_missing", "issuance_failed"}
  }

  /** What an issuance error's chain holds. */
  datatype Failure = Failure(dns: Option<string>, cancelled: bool, deadline: bool, problemType: Option<string>,
    authorization: bool)

  function Classify(f: Failure): (code: string)
    ensures SafeProblem(code)
  {
    if f.dns.Some? then (if f.dns.value in DNS_CODES then f.dns.value else "issuance_failed")
    else if f.cancelled then "cancelled"
    else if f.deadline then "timeout"
    else if f.problemType == Some("urn:ietf:params:acme:error:rateLimited") then "rate_limited"
    else if f.problemType == Some("urn:ietf:params:acme:error:userActionRequired") then "action_required"
    else if f.problemType == Some("urn:ietf:params:acme:error:unauthorized") then "authorization_failed"
    else if f.problemType == Some("urn:ietf:params:acme:error:accountDoesNotExist") then "account_missing"
    else if f.authorization then "authorization_failed"
    else "issuance_failed"
  }

  // ----- the durable record -----

  datatype Retry = Retry(version: int, failures: int, next: Time, problem: string)
  const FRESH := Retry(0, 0, ZERO_TIME, "")       // the zero value of a manager that has read nothing
  const CLEARED := Retry(1, 0, ZERO_TIME, "")

  /** What load accepts. */
  predicate Accepts(r: Retry) { r.version == 1 && 0 <= r.failures <= MAX_FAILURES && SafeProblem(r.problem) }

  /** How a write of the record ends: durable; failed before the rename; or renamed but not synced,
      so that the old record may still come back. */
  datatype Fate = Synced | Lost | Unsynced

  /** The record directory: what a read finds, and the older records a crash may bring back. */
  datatype Disk = Disk(seen: Option<Retry>, older: set<Option<Retry>>) {
    function Write(r: Retry, fate: Fate): Disk {
      match fate
      case Synced => Disk(Some(r), {})
      case Lost => this
      case Unsynced => Disk(Some(r), older + {seen})
    }

    /** The records a later load may find. */
    predicate Holds(r: Option<Retry>) { r == seen || r in older }
  }

  datatype State = State(disk: Disk, retry: Retry, cooldown: Time, storageFailed: bool, attempting: bool)

  // ----- the manager's steps -----

  function Load(s: State): State {
    if s.disk.seen.Some? then s.(retry := s.disk.seen.value) else s
  }

  predicate LoadFails(s: State) { s.disk.seen.Some? && !Accepts(s.disk.seen.value) }

  function StopOnStorageError(s: State): State {
    s.(storageFailed := true, retry := s.retry.(problem := "storage_failed"))
  }

  function Reservation(r: Retry, now: Time, budget: int, jitter: int): Retry {
    var count := Min(r.failures + 1, MAX_FAILURES);
    Retry(1, count, now + budget + Backoff(count, jitter), "issuance_interrupted")
  }

  /** ensure up to the order: `needed` says no usable certificate is at hand or its renewal is due. */
  datatype Call = Call(now: Time, needed: bool, cancelled: bool, dns: bool, jitter: int, fate: Fate)

  function Budget(dns: bool): int { if dns then DNS_ATTEMPT_TIMEOUT else ATTEMPT_TIMEOUT }

  predicate Starts(s: State, c: Call) {
    && !s.storageFailed && !LoadFails(s) && c.needed && c.now >= Load(s).retry.next && !c.cancelled && c.fate.Synced?
  }

  function Ensure(s: State, c: Call): State {
    if s.storageFailed then s
    else if LoadFails(s) then StopOnStorageError(s)
    else
      var m := Load(s);
      if !c.needed || c.now < m.retry.next || c.cancelled then m
      else
        var r := Reservation(m.retry, c.now, Budget(c.dns), c.jitter);
        var w := m.(disk := m.disk.Write(r, c.fate), retry := r, cooldown := ZERO_TIME);
        if c.fate.Synced? then w.(attempting := true) else StopOnStorageError(w)
  }

  /** A response with an error status, whose Retry-After reads as `next`. */
  function Observe(s: State, next: Time, fate: Fate): State {
    var m := s.(cooldown := Max(s.cooldown, next));
    if next <= m.retry.next then m
    else
      var r := m.retry.(next := next);
      var w := m.(disk := m.disk.Write(r, fate), retry := r);
      if fate.Synced? then w else StopOnStorageError(w)
  }

  function FailureRecord(s: State, problem: string, now: Time, jitter: int): Retry {
    s.retry.(problem := problem, next := Max(now + Backoff(s.retry.failures, jitter), s.cooldown))
  }

  function FinishFailure(s: State, problem: string, now: Time, jitter: int, fate: Fate): State {
    if s.storageFailed then s.(attempting := false)
    else
      var r := FailureRecord(s, problem, now, jitter);
      var w := s.(disk := s.disk.Write(r, fate), retry := r, attempting := false);
      if fate.Synced? then w else StopOnStorageError(w)
  }

  /** A certificate was issued: its record is written (stored), then the retry record is cleared. */
  function FinishSuccess(s: State, stored: bool, fate: Fate): State {
    if !stored then StopOnStorageError(s).(attempting := false)
    else
      var w := s.(disk := s.disk.Write(CLEARED, fate), retry := CLEARED, attempting := false);
      if fate.Synced? then w else StopOnStorageError(w)
  }

  // ----- runs -----

  datatype Event =
    | Calls(call: Call)
    | Response(next: Time, fate: Fate)
    | Failed(problem: string, now: Time, jitter: int, fate: Fate)
    | Succeeded(stored: bool, fate: Fate)
    | Killed(found: Option<Retry>)      // the process dies and a new one starts on whichever record survived

  function Restarted(s: State, found: Option<Retry>): State {
    State(Disk(found, s.disk.older + {s.disk.seen}), if found.Some? then found.value else FRESH, ZERO_TIME, false,
      false)
  }

  ghost predicate Step(s: State, e: Event, t: State) {
    match e
    case Calls(c) => !s.attempting && IsJitter(c.jitter) && t == Ensure(s, c)
    case Response(next, fate) => s.attempting && t == Observe(s, next, fate)
    case Failed(problem, now, jitter, fate) =>
      s.attempting && SafeProblem(problem) && IsJitter(jitter) && t == FinishFailure(s, problem, now, jitter, fate)
    case Succeeded(stored, fate) => s.attempting && t == FinishSuccess(s, stored, fate)
    case Killed(found) => s.disk.Holds(found) && t == Restarted(s, found)
  }

  const INITIAL := State(Disk(None, {}), FRESH, ZERO_TIME, false, false)

  ghost predicate Run(ss: seq<State>, es: seq<Event>) {
    && |ss| == |es| + 1 && ss[0] == INITIAL
    && forall i :: 0 <= i < |es| ==> Step(ss[i], es[i], ss[i + 1])
  }

  // ----- every record is acceptable -----

  predicate SoundMemory(r: Retry) { 0 <= r.failures <= MAX_FAILURES && SafeProblem(r.problem) }

  ghost predicate Sound(s: State) {
    && SoundMemory(s.retry)
    && (forall r :: s.disk.Holds(Some(r)) ==> Accepts(r))
    && (s.attempting ==> s.retry.version == 1)
    && (s.attempting && !s.storageFailed ==> s.disk == Disk(Some(s.retry), {}))
  }

  lemma SoundStep(s: State, e: Event, t: State)
    requires Sound(s) && Step(s, e, t)
    ensures Sound(t)
  {
    hide SafeProblem, Backoff;
    assert SafeProblem("issuance_interrupted") && SafeProblem("storage_failed") && SafeProblem("")
      by { SafeProblems(); }
  }

  lemma SafeProblems()
    ensures SafeProblem("issuance_interrupted") && SafeProblem("storage_failed") && SafeProblem("")
  {
  }

  /** In every run, every record a load may find is one load accepts: no interrupted attempt, kill or
      failed write leaves a record that stops the next start. */
  lemma {:induction false} RecordsAreAccepted(ss: seq<State>, es: seq<Event>, i: nat)
    requires Run(ss, es) && i <= |es|
    ensures Sound(ss[i]) && !LoadFails(ss[i])
  {
    if i == 0 {
      SafeProblems();
    } else {
      RecordsAreAccepted(ss, es, i - 1);
      SoundStep(ss[i - 1], es[i - 1], ss[i]);
    }
  }

  // ----- attempts are spaced -----

  predicate StartsAt(ss: seq<State>, es: seq<Event>, i: nat)
    requires |ss| == |es| + 1 && i < |es|
  {
    es[i].Calls? && Starts(ss[i], es[i].call)
  }

  /** The attempt that starts at i is still the latest, and has stored no certificate, before event k. */
  ghost predicate Latest(ss: seq<State>, es: seq<Event>, i: nat, k: nat)
    requires |ss| == |es| + 1
  {
    && i < k <= |es| && StartsAt(ss, es, i)
    && forall j :: i < j < k ==> !StartsAt(ss, es, j) && !(es[j].Succeeded? && es[j].stored)
  }

  /** What the attempt reserves at its start: its time budget and its backoff, jitter included. */
  ghost function Reserved(ss: seq<State>, es: seq<Event>, i: nat): Time
    requires |ss| == |es| + 1 && i < |es| && es[i].Calls?
  {
    es[i].call.now + Budget(es[i].call.dns) + Backoff(ss[i + 1].retry.failures, es[i].call.jitter)
  }

  /** What the attempt that starts at i owes before event k: its reservation, raised by each Retry-After it recorded;
      once its failure is durably recorded, its end plus its backoff and every Retry-After it observed. A failure
      record that was lost leaves what was owed; one renamed but not synced may be found or not. */
  ghost function Owed(ss: seq<State>, es: seq<Event>, i: nat, k: nat): Time
    requires |ss| == |es| + 1 && i < k <= |es| && es[i].Calls?
    decreases k
  {
    if k == i + 1 then Reserved(ss, es, i) else OwedAfter(ss[k - 1], es[k - 1], ss[k], Owed(ss, es, i, k - 1))
  }

  /** The Retry-After is durable: the record on disk reaches it already, or it was written and synced. */
  predicate Records(s: State, next: Time, fate: Fate, t: State) {
    !t.storageFailed || (next > s.retry.next && fate.Synced?)
  }

  ghost function OwedAfter(s: State, e: Event, t: State, owed: Time): Time {
    match e
    case Response(next, fate) => if Records(s, next, fate, t) then Max(owed, next) else owed
    case Failed(_, now, jitter, fate) =>
      var done := Max(now + Backoff(s.retry.failures, jitter), s.cooldown);
      if s.storageFailed || fate.Lost? then owed else if fate.Synced? then done else Min(owed, done)
    case _ => owed
  }

  ghost predicate Carries(s: State, owed: Time) {
    && !s.disk.Holds(None)
    && (forall r :: s.disk.Holds(Some(r)) ==> r.next >= owed)
    && (s.attempting ==> s.retry.next >= owed)
  }

  lemma OwedStep(s: State, e: Event, t: State, owed: Time)
    requires Sound(s) && Step(s, e, t) && Carries(s, owed)
    requires !(e.Calls? && Starts(s, e.call)) && !(e.Succeeded? && e.stored)
    ensures Carries(t, OwedAfter(s, e, t, owed))
  {
    hide SafeProblem, Backoff;
    if e.Calls? { QuietCall(s, e.call); }
  }

  /** A call that starts no attempt leaves the records as they were, except that its reservation may have
      been written before the write failed; that reservation is later than the record it replaces. */
  lemma QuietCall(s: State, c: Call)
    requires Sound(s) && !Starts(s, c) && IsJitter(c.jitter) && s.disk.seen.Some?
    ensures Ensure(s, c).disk == s.disk ||
            (exists r ::
              Ensure(s, c).disk == Disk(Some(r), s.disk.older + {s.disk.seen}) && r.next >= s.disk.seen.value.next)
  {
    hide SafeProblem;
    var r := Reservation(Load(s).retry, c.now, Budget(c.dns), c.jitter);
    BackoffBounds(r.failures, c.jitter);
  }

  lemma FirstOwed(ss: seq<State>, es: seq<Event>, i: nat)
    requires Run(ss, es) && i < |es| && StartsAt(ss, es, i)
    ensures Carries(ss[i + 1], Reserved(ss, es, i))
  {
    assert Step(ss[i], es[i], ss[i + 1]);
  }

  /** Every record that may be found while the attempt is the latest carries what it owes. */
  lemma {:induction false} RecordsCarryOwed(ss: seq<State>, es: seq<Event>, i: nat, k: nat)
    requires Run(ss, es) && Latest(ss, es, i, k)
    ensures Carries(ss[k], Owed(ss, es, i, k))
    decreases k
  {
    hide Sound, Ensure, Observe, FinishFailure, FinishSuccess, Restarted, SafeProblem, OwedAfter, Starts, Backoff;
    if k == i + 1 {
      FirstOwed(ss, es, i);
    } else {
      RecordsCarryOwed(ss, es, i, k - 1);
      RecordsAreAccepted(ss, es, k - 1);
      assert Step(ss[k - 1], es[k - 1], ss[k]) && !StartsAt(ss, es, k - 1);
      OwedStep(ss[k - 1], es[k - 1], ss[k], Owed(ss, es, i, k - 1));
    }
  }

  /** Attempts stay spaced: for any kills, restarts and failed writes, the next attempt after one that did
      not succeed starts no earlier than what that attempt owes. */
  lemma AttemptsAreSpaced(ss: seq<State>, es: seq<Event>, i: nat, j: nat)
    requires Run(ss, es) && Latest(ss, es, i, j) && j < |es| && StartsAt(ss, es, j)
    ensures es[j].call.now >= Owed(ss, es, i, j)
  {
    RecordsCarryOwed(ss, es, i, j);
    assert ss[j].disk.Holds(ss[j].disk.seen);
  }

  predicate RecordsAt(ss: seq<State>, es: seq<Event>, o: nat)
    requires |ss| == |es| + 1 && o < |es|
  {
    es[o].Response? && Records(ss[o], es[o].next, es[o].fate, ss[o + 1])
  }

  /** An attempt cut off before it failed owes its start plus its budget and backoff, and every Retry-After recorded. */
  lemma {:induction false} InterruptedAttemptOwes(ss: seq<State>, es: seq<Event>, i: nat, k: nat)
    requires Run(ss, es) && Latest(ss, es, i, k) && forall f :: i < f < k ==> !es[f].Failed?
    ensures Owed(ss, es, i, k) >= Reserved(ss, es, i)
    ensures forall o :: i < o < k && RecordsAt(ss, es, o) ==> Owed(ss, es, i, k) >= es[o].next
    decreases k
  {
    hide Reserved;
    if k > i + 1 { InterruptedAttemptOwes(ss, es, i, k - 1); }
  }

  /** The failure's record is written and synced. */
  predicate Durable(ss: seq<State>, es: seq<Event>, f: nat)
    requires |ss| == |es| + 1 && f < |es|
  {
    es[f].Failed? && es[f].fate.Synced? && !ss[f].storageFailed
  }

  /** After a failure, what is owed stays as it was until the next attempt. */
  lemma {:induction false} OwedRests(ss: seq<State>, es: seq<Event>, i: nat, f: nat, k: nat)
    requires Run(ss, es) && Latest(ss, es, i, k) && i < f < k && es[f].Failed?
    ensures Owed(ss, es, i, k) == Owed(ss, es, i, f + 1)
    decreases k
  {
    hide Reserved, Sound, Starts, Ensure, Observe, FinishFailure, FinishSuccess, Restarted, SafeProblem;
    if k > f + 1 {
      OwedRests(ss, es, i, f, k - 1);
      IdleAfterFailure(ss, es, i, f, k - 1);
      assert Step(ss[k - 1], es[k - 1], ss[k]);
    }
  }

  /** A failure durably recorded owes its end plus its backoff, jitter included, and every Retry-After observed. */
  lemma FailedAttemptOwes(ss: seq<State>, es: seq<Event>, i: nat, f: nat, k: nat)
    requires Run(ss, es) && Latest(ss, es, i, k) && i < f < k && Durable(ss, es, f)
    ensures Owed(ss, es, i, k) >= es[f].now + Backoff(ss[f].retry.failures, es[f].jitter)
    ensures forall o :: i < o < f && es[o].Response? ==> Owed(ss, es, i, k) >= es[o].next
  {
    OwedRests(ss, es, i, f, k);
    assert Step(ss[f], es[f], ss[f + 1]);
    forall o | i < o < f && es[o].Response? ensures ss[f].cooldown >= es[o].next { CooldownKeeps(ss, es, i, o, f); }
  }

  /** While an attempt runs, every event since its start is a response, and its failure count is fixed. */
  lemma {:induction false} RunningAttempt(ss: seq<State>, es: seq<Event>, i: nat, k: nat)
    requires Run(ss, es) && Latest(ss, es, i, k) && ss[k].attempting
    ensures forall o :: i < o < k ==> es[o].Response? && ss[o].attempting
    ensures ss[k].retry.failures == ss[i + 1].retry.failures
    decreases k
  {
    assert Step(ss[k - 1], es[k - 1], ss[k]);
    if k > i + 1 {
      assert !StartsAt(ss, es, k - 1) && ss[k - 1].attempting && es[k - 1].Response?;
      RunningAttempt(ss, es, i, k - 1);
    }
  }

  /** Among responses, what is owed is the reservation or the latest Retry-After recorded. */
  lemma {:induction false} OwedReaches(ss: seq<State>, es: seq<Event>, i: nat, k: nat, t: Time)
    requires |ss| == |es| + 1 && i < k <= |es| && es[i].Calls? && forall o :: i < o < k ==> es[o].Response?
    ensures Owed(ss, es, i, k) >= t <==> Reserved(ss, es, i) >= t || Recorded(ss, es, i, k, t)
    decreases k
  {
    hide Reserved;
    if k > i + 1 {
      OwedReaches(ss, es, i, k - 1, t);
      assert es[k - 1].Response?;
    }
  }

  /** A Retry-After of at least t was recorded between i and k. */
  predicate Recorded(ss: seq<State>, es: seq<Event>, i: nat, k: nat, t: Time)
    requires |ss| == |es| + 1 && k <= |es|
  {
    exists o :: i < o < k && RecordsAt(ss, es, o) && es[o].next >= t
  }

  /** Exactly when a failed attempt owes its end plus its backoff: its record is durable, or it ended within the
      time it had reserved, or it recorded a Retry-After that long. */
  lemma FailedAttemptOwesExactly(ss: seq<State>, es: seq<Event>, i: nat, f: nat, k: nat)
    requires Run(ss, es) && Latest(ss, es, i, k) && i < f < k && es[f].Failed?
    ensures ss[f].retry.failures == ss[i + 1].retry.failures
    ensures var back := Base(ss[f].retry.failures);
            Owed(ss, es, i, k) >= es[f].now + back <==>
              || Durable(ss, es, f)
              || es[f].now <= es[i].call.now + Budget(es[i].call.dns) + es[i].call.jitter
              || Recorded(ss, es, i, f, es[f].now + back)
  {
    hide Base;
    assert Step(ss[f], es[f], ss[f + 1]);
    LatestBefore(ss, es, i, f, k);
    RunningAttempt(ss, es, i, f);
    OwedRests(ss, es, i, f, k);
    OwedReaches(ss, es, i, f, es[f].now + Base(ss[f].retry.failures));
    FailureOwes(ss[f], es[f], ss[f + 1], Owed(ss, es, i, f));
  }

  lemma LatestBefore(ss: seq<State>, es: seq<Event>, i: nat, f: nat, k: nat)
    requires |ss| == |es| + 1 && Latest(ss, es, i, k) && i < f <= k
    ensures Latest(ss, es, i, f)
  {
  }

  lemma FailureOwes(s: State, e: Event, t: State, owed: Time)
    requires e.Failed? && IsJitter(e.jitter)
    ensures var (after, end) := (OwedAfter(s, e, t, owed), e.now + Base(s.retry.failures));
            after >= end <==> (e.fate.Synced? && !s.storageFailed) || owed >= end
  {
    hide Base;
  }

  // ----- the condition matters -----

  /** Some record that may be found defers by no more than what is owed. */
  ghost predicate Holding(s: State, owed: Time) { exists r :: s.disk.Holds(Some(r)) && r.next == owed }

  lemma HoldingStep(s: State, e: Event, t: State, owed: Time)
    requires Sound(s) && Step(s, e, t) && Carries(s, owed) && Holding(s, owed)
    requires !(e.Calls? && Starts(s, e.call)) && !(e.Succeeded? && e.stored)
    ensures Holding(t, OwedAfter(s, e, t, owed))
  {
    hide SafeProblem, Backoff;
    var r :| s.disk.Holds(Some(r)) && r.next == owed;
    if e.Calls? { QuietCall(s, e.call); }
    assert t.disk.Holds(Some(r)) || t.disk == Disk(Some(t.retry), {});
    if e.Failed? && !t.disk.Holds(Some(r)) { assert t.disk.Holds(Some(t.retry)); }
  }

  /** The attempt owes exactly the earliest time a record that may be found defers to. */
  lemma {:induction false} OwedIsHeld(ss: seq<State>, es: seq<Event>, i: nat, k: nat)
    requires Run(ss, es) && Latest(ss, es, i, k)
    ensures Holding(ss[k], Owed(ss, es, i, k))
    decreases k
  {
    hide Sound, Ensure, Observe, FinishFailure, FinishSuccess, Restarted, SafeProblem, OwedAfter, Starts, Backoff,
         Holding;
    if k == i + 1 {
      FirstHeld(ss, es, i);
    } else {
      LatestBefore(ss, es, i, k - 1, k);
      OwedIsHeld(ss, es, i, k - 1);
      RecordsCarryOwed(ss, es, i, k - 1);
      RecordsAreAccepted(ss, es, k - 1);
      assert Step(ss[k - 1], es[k - 1], ss[k]) && !StartsAt(ss, es, k - 1);
      HoldingStep(ss[k - 1], es[k - 1], ss[k], Owed(ss, es, i, k - 1));
    }
  }

  lemma FirstHeld(ss: seq<State>, es: seq<Event>, i: nat)
    requires Run(ss, es) && i < |es| && StartsAt(ss, es, i)
    ensures Holding(ss[i + 1], Reserved(ss, es, i))
  {
    assert Step(ss[i], es[i], ss[i + 1]);
    assert ss[i + 1].disk.Holds(Some(ss[i + 1].retry));
  }

  /** The restart on a record and the call that starts an attempt as soon as that record allows. */
  function Restart(s: State, r: Retry): (ss: seq<State>)
    ensures |ss| == 2
  {
    var t := Restarted(s, Some(r));
    [t, Ensure(t, Call(r.next, true, false, false, 0, Synced))]
  }

  /** The bound is attained: however its writes ended, every attempt that stored no certificate can be followed by a
      kill and a next attempt at exactly what it owes. */
  lemma OwedIsTight(ss: seq<State>, es: seq<Event>, i: nat)
    requires Run(ss, es) && Latest(ss, es, i, |es|)
    ensures exists ss': seq<State>, es': seq<Event> :: |es'| == 2 && Run(ss + ss', es + es')
              && Latest(ss + ss', es + es', i, |es| + 1) && StartsAt(ss + ss', es + es', |es| + 1)
              && (es + es')[|es| + 1].call.now == Owed(ss, es, i, |es|)
  {
    hide Base, SafeProblem, Backoff, Owed, OwedAfter;
    var (n, s) := (|es|, ss[|es|]);
    OwedIsHeld(ss, es, i, n);
    RecordsAreAccepted(ss, es, n);
    var r :| s.disk.Holds(Some(r)) && r.next == Owed(ss, es, i, n);
    var next := Call(r.next, true, false, false, 0, Synced);
    var (ss', es') := (Restart(s, r), [Killed(Some(r)), Calls(next)]);
    ExtendRun(ss, es, ss', es');
    forall j | i < j < n + 1
      ensures !StartsAt(ss + ss', es + es', j) && !((es + es')[j].Succeeded? && (es + es')[j].stored)
    {
      if j < n { assert !StartsAt(ss, es, j); }
    }
  }

  lemma ExtendRun(ss: seq<State>, es: seq<Event>, ss': seq<State>, es': seq<Event>)
    requires Run(ss, es) && |ss'| == |es'| == 2
    requires Step(ss[|es|], es'[0], ss'[0]) && Step(ss'[0], es'[1], ss'[1])
    ensures Run(ss + ss', es + es')
  {
    hide Step;
    forall j | 0 <= j < |es + es'| ensures Step((ss + ss')[j], (es + es')[j], (ss + ss')[j + 1]) {
      if j < |es| { assert Step(ss[j], es[j], ss[j + 1]); }
      else if j == |es| { assert (ss + ss')[j] == ss[|es|]; }
    }
  }

  /** An attempt that ran ten minutes on a five-minute budget, whose failure record was lost before a kill:
      the next attempt starts a second after its end, well before its end plus its backoff. */
  lemma OverrunIsNotSpaced()
    ensures exists ss: seq<State>, es: seq<Event> ::
            Run(ss, es) && |es| == 4 && Latest(ss, es, 0, 3) && es[1].Failed? && es[1].fate.Lost?
              && StartsAt(ss, es, 3) && es[3].call.now < es[1].now + Base(ss[1].retry.failures)
  {
    hide SafeProblem;
    SafeProblems();
    assert Shift(0) == 1 && Base(1) == MINUTE;
    var first := Call(0, true, false, false, 0, Synced);
    var s1 := Ensure(INITIAL, first);
    var e1 := Failed("issuance_interrupted", 10 * MINUTE, 0, Lost);
    var s2 := FinishFailure(s1, "issuance_interrupted", 10 * MINUTE, 0, Lost);
    var s3 := Restarted(s2, s2.disk.seen);
    var again := Call(10 * MINUTE + SECOND, true, false, false, 0, Synced);
    var s4 := Ensure(s3, again);
    var (ss, es) := ([INITIAL, s1, s2, s3, s4], [Calls(first), e1, Killed(s2.disk.seen), Calls(again)]);
    assert s1.retry == Retry(1, 1, 6 * MINUTE, "issuance_interrupted");
    assert Step(INITIAL, es[0], s1) && Step(s1, es[1], s2) && Step(s2, es[2], s3) && Step(s3, es[3], s4);
    assert Run(ss, es) && Latest(ss, es, 0, 3) && StartsAt(ss, es, 3);
  }

  /** No attempt runs between a failure and the next start. */
  lemma {:induction false} IdleAfterFailure(ss: seq<State>, es: seq<Event>, i: nat, f: nat, k: nat)
    requires Run(ss, es) && Latest(ss, es, i, k) && i < f < k && (es[f].Failed? || es[f].Killed?)
    ensures !ss[k].attempting
    decreases k
  {
    assert Step(ss[k - 1], es[k - 1], ss[k]);
    if k > f + 1 { IdleAfterFailure(ss, es, i, f, k - 1); }
  }

  /** The attempt's cooldown keeps every Retry-After it has observed. */
  lemma {:induction false} CooldownKeeps(ss: seq<State>, es: seq<Event>, i: nat, o: nat, k: nat)
    requires Run(ss, es) && Latest(ss, es, i, k) && i < o < k && es[o].Response? && ss[k].attempting
    ensures ss[k].cooldown >= es[o].next
    decreases k
  {
    assert Step(ss[k - 1], es[k - 1], ss[k]) && !StartsAt(ss, es, k - 1);
    if k > o + 1 { CooldownKeeps(ss, es, i, o, k - 1); }
  }

  // ----- the manager object -----

  /** The manager's fields and its record directory. */
  class Manager {
    var disk: Disk
    var retry: Retry
    var cooldown: Time
    var storageFailed: bool
    var attempting: bool

    ghost function Abstract(): State
      reads this
    {
      State(disk, retry, cooldown, storageFailed, attempting)
    }

    /** While an attempt runs and every write has succeeded, its own record is the durable one. */
    ghost predicate Valid()
      reads this
    {
      attempting && !storageFailed ==> disk == Disk(Some(retry), {})
    }

    /** The time before which the record on disk, or the one read before, defers the next attempt. */
    ghost function Deferral(): Time
      reads this
    {
      if disk.seen.Some? then disk.seen.value.next else retry.next
    }

    /** A new process on the record directory a kill left. */
    constructor (found: Disk)
      ensures Valid() && disk == found && !attempting && !storageFailed
      ensures retry == if found.seen.Some? then found.seen.value else FRESH
    {
      disk := found;
      retry := if found.seen.Some? then found.seen.value else FRESH;
      cooldown := ZERO_TIME;
      storageFailed := false;
      attempting := false;
    }

    method Stop()
      modifies this
      ensures Abstract() == StopOnStorageError(old(Abstract()))
    {
      storageFailed := true;
      retry := retry.(problem := "storage_failed");
    }

    method ReadRetry() returns (ok: bool)
      modifies this
      ensures ok <==> !LoadFails(old(Abstract()))
      ensures Abstract() == if ok then Load(old(Abstract())) else old(Abstract())
    {
      if disk.seen.Some? {
        if !Accepts(disk.seen.value) { return false; }
        retry := disk.seen.value;
      }
      ok := true;
    }

    /** An attempt starts only past the recorded time, and only once its reservation is durable. */
    method Begin(c: Call) returns (started: bool)
      requires !attempting
      modifies this
      ensures Valid() && Abstract() == Ensure(old(Abstract()), c)
      ensures started <==> attempting
      ensures started ==> !old(storageFailed) && c.needed && !c.cancelled && c.now >= old(Deferral())
      ensures started ==> disk == Disk(Some(retry), {})
      ensures started ==> retry.next == c.now + Budget(c.dns) + Backoff(retry.failures, c.jitter)
      ensures !started && disk != old(disk) ==> storageFailed
    {
      started := false;
      if storageFailed { return; }
      var ok := ReadRetry();
      if !ok {
        Stop();
        return;
      }
      if !c.needed { return; }
      if c.now < retry.next { return; }
      if c.cancelled { return; }
      cooldown := ZERO_TIME;
      var count := Min(retry.failures + 1, MAX_FAILURES);
      retry := Retry(1, count, c.now + (Budget(c.dns) + Backoff(count, c.jitter)), "issuance_interrupted");
      disk := disk.Write(retry, c.fate);
      if !c.fate.Synced? {
        Stop();
        return;
      }
      attempting := true;
      started := true;
    }

    /** Every Retry-After raises the cooldown; while storage is healthy the durable record is never earlier than it. */
    method Respond(next: Time, fate: Fate)
      requires Valid() && attempting
      modifies this
      ensures Valid() && attempting && Abstract() == Observe(old(Abstract()), next, fate)
      ensures cooldown >= next && cooldown >= old(cooldown) && retry.next >= next && retry.next >= old(retry.next)
      ensures !storageFailed ==> disk == Disk(Some(retry), {})
      ensures storageFailed && !old(storageFailed) ==> next > old(retry.next) && !fate.Synced?
    {
      if next > cooldown { cooldown := next; }
      if next > retry.next {
        retry := retry.(next := next);
        disk := disk.Write(retry, fate);
        if !fate.Synced? { Stop(); }
      }
    }

    /** A durable failure record defers the next attempt by the backoff from now and by every cooldown observed;
        a lost one leaves the reservation. */
    method Fail(problem: string, now: Time, jitter: int, fate: Fate)
      requires Valid() && attempting
      modifies this
      ensures Valid() && !attempting && Abstract() == FinishFailure(old(Abstract()), problem, now, jitter, fate)
      ensures !storageFailed ==>
                disk.older == {} && Deferral() == Max(now + Backoff(old(retry.failures), jitter), old(cooldown))
      ensures !storageFailed <==> !old(storageFailed) && fate.Synced?
      ensures old(storageFailed) || fate.Lost? ==> disk == old(disk)
    {
      attempting := false;
      if storageFailed { return; }
      retry := retry.(problem := problem);
      retry := retry.(next := now + Backoff(retry.failures, jitter));
      if cooldown > retry.next { retry := retry.(next := cooldown); }
      disk := disk.Write(retry, fate);
      if !fate.Synced? { Stop(); }
    }

    /** The reservation stands until the certificate is stored; only then is it cleared. */
    method Succeed(stored: bool, fate: Fate)
      requires Valid() && attempting
      modifies this
      ensures Valid() && !attempting && Abstract() == FinishSuccess(old(Abstract()), stored, fate)
      ensures !stored ==> disk == old(disk) && storageFailed
      ensures stored && fate.Synced? ==> disk == Disk(Some(CLEARED), {}) && Deferral() == ZERO_TIME
      ensures stored && fate.Lost? ==> disk == old(disk) && storageFailed
    {
      attempting := false;
      if !stored {
        Stop();
        return;
      }
      retry := CLEARED;
      disk := disk.Write(retry, fate);
      if !fate.Synced? { Stop(); }
    }
  }
}
