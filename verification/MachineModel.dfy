/** The replicated key-value machine: deduplication by client, and snapshots. */
module MachineModel {
  import opened RaftTypes
  import opened WalFormat

  datatype Client = Client(requestId: nat, value: nat, found: bool)

  datatype State = State(values: map<nat, nat>, clients: map<nat, Client>)

  const EMPTY := State(map[], map[])

  /** What a client is told; `Ignored` for entries that carry no request. */
  datatype Answer = Ignored | Done(clientId: nat, requestId: nat, value: nat, found: bool) | StaleRequest

  predicate Repeats(s: State, e: Entry) {
    e.clientId in s.clients && s.clients[e.clientId].requestId == e.requestId
  }

  predicate IsStale(s: State, e: Entry) {
    e.clientId in s.clients && e.requestId < s.clients[e.clientId].requestId
  }

  /** What the operation alone does to the values. */
  function Plain(values: map<nat, nat>, e: Entry): map<nat, nat> {
    match e.operation
    case Put => values[e.key := e.value]
    case Delete => values - {e.key}
    case Legacy => values
  }

  /** The answer to an operation that is carried out. */
  function Outcome(values: map<nat, nat>, e: Entry): Client {
    if e.operation == CommandOp.Put then Client(e.requestId, e.value, true)
    else if e.key in values then Client(e.requestId, values[e.key], true) else Client(e.requestId, 0, false)
  }

  function Apply(s: State, e: Entry): State {
    if e.operation == Legacy || Repeats(s, e) || IsStale(s, e) then s
    else State(Plain(s.values, e), s.clients[e.clientId := Outcome(s.values, e)])
  }

  function AnswerTo(s: State, e: Entry): Answer {
    if e.operation == Legacy then Ignored
    else if Repeats(s, e) then var c := s.clients[e.clientId]; Done(e.clientId, c.requestId, c.value, c.found)
    else if IsStale(s, e) then StaleRequest
    else var c := Outcome(s.values, e); Done(e.clientId, c.requestId, c.value, c.found)
  }

  function ApplyAll(s: State, log: seq<Entry>): State {
    if log == [] then s else Apply(ApplyAll(s, log[..|log| - 1]), log[|log| - 1])
  }

  // ----- Exactly once -----

  /** Entry `i` is a request with a larger number than every earlier request of its client. */
  predicate Fresh(log: seq<Entry>, i: nat)
    requires i < |log|
  {
    && log[i].operation != Legacy
    && forall j :: 0 <= j < i && log[j].operation != Legacy && log[j].clientId == log[i].clientId ==> log[j].requestId < log[i].requestId
  }

  /** Every fresh request carried out once, in order, with no memory of clients at all. */
  function FreshOnly(log: seq<Entry>, n: nat): map<nat, nat>
    requires n <= |log|
  {
    if n == 0 then map[] else if Fresh(log, n - 1) then Plain(FreshOnly(log, n - 1), log[n - 1]) else FreshOnly(log, n - 1)
  }

  /** `id` is the largest request number of client `c` among the first `n` entries. */
  ghost predicate Latest(log: seq<Entry>, n: nat, c: nat, id: nat)
    requires n <= |log|
  {
    && (exists j :: 0 <= j < n && log[j].operation != Legacy && log[j].clientId == c && log[j].requestId == id)
    && (forall j :: 0 <= j < n && log[j].operation != Legacy && log[j].clientId == c ==> log[j].requestId <= id)
  }

  ghost predicate Tracks(log: seq<Entry>, n: nat, s: State)
    requires n <= |log|
  {
    && s.values == FreshOnly(log, n)
    && (forall c :: c in s.clients ==> Latest(log, n, c, s.clients[c].requestId))
    && (forall j :: 0 <= j < n && log[j].operation != Legacy ==> log[j].clientId in s.clients)
  }

  lemma FreshExactly(log: seq<Entry>, n: nat, s: State)
    requires n < |log| && Tracks(log, n, s)
    ensures Fresh(log, n) <==> !(log[n].operation == Legacy || Repeats(s, log[n]) || IsStale(s, log[n]))
  {
    var e := log[n];
    if e.operation != Legacy && e.clientId in s.clients {
      assert Latest(log, n, e.clientId, s.clients[e.clientId].requestId);
    }
  }

  lemma {:induction false} TracksLog(log: seq<Entry>, n: nat)
    requires n <= |log|
    ensures Tracks(log, n, ApplyAll(EMPTY, log[..n]))
  {
    if n > 0 {
      var k := n - 1;
      TracksLog(log, k);
      assert log[..n][..|log[..n]| - 1] == log[..k] && log[..n][|log[..n]| - 1] == log[k];
      var s, t := ApplyAll(EMPTY, log[..k]), ApplyAll(EMPTY, log[..n]);
      FreshExactly(log, k, s);
      TracksOne(log, k, s);
    }
  }

  lemma TracksOne(log: seq<Entry>, k: nat, s: State)
    requires k < |log| && Tracks(log, k, s)
    requires Fresh(log, k) <==> !(log[k].operation == Legacy || Repeats(s, log[k]) || IsStale(s, log[k]))
    ensures Tracks(log, k + 1, Apply(s, log[k]))
  {
    hide Plain, Outcome;
    var e, t := log[k], Apply(s, log[k]);
    OutcomeNumber(s.values, e);
    forall c | c in t.clients ensures Latest(log, k + 1, c, t.clients[c].requestId) {
      if c in s.clients {
        assert Latest(log, k, c, s.clients[c].requestId);
        var j :| 0 <= j < k && log[j].operation != Legacy && log[j].clientId == c && log[j].requestId == s.clients[c].requestId;
        if c == e.clientId && Fresh(log, k) { assert log[k].requestId == t.clients[c].requestId; }
      }
    }
  }

  lemma OutcomeNumber(values: map<nat, nat>, e: Entry)
    ensures Outcome(values, e).requestId == e.requestId
  {
  }

  /** Applying a log with retries, duplicates and stale requests leaves the values that carrying
      out each fresh request once would leave. */
  lemma ExactlyOnce(log: seq<Entry>)
    ensures ApplyAll(EMPTY, log).values == FreshOnly(log, |log|)
  {
    assert log[..|log|] == log;
    TracksLog(log, |log|);
  }

  // ----- What the machine holds and answers, read off the log -----

  /** Entry `i` is the last fresh request on key `k` among the first `n` entries. */
  predicate LastOn(log: seq<Entry>, n: nat, k: nat, i: nat)
    requires n <= |log|
  {
    && i < n && Fresh(log, i) && log[i].key == k
    && forall j :: i < j < n && log[j].key == k ==> !Fresh(log, j)
  }

  /** Entry `i` is a put, and it is what key `k` holds after the first `n` entries. */
  predicate HeldFrom(log: seq<Entry>, n: nat, k: nat, i: nat)
    requires n <= |log|
  {
    LastOn(log, n, k, i) && log[i].operation == CommandOp.Put
  }

  lemma {:induction false} FreshOnlyIs(log: seq<Entry>, n: nat, k: nat)
    requires n <= |log|
    ensures k in FreshOnly(log, n) <==> exists i: nat :: HeldFrom(log, n, k, i)
    ensures forall i: nat :: HeldFrom(log, n, k, i) ==> k in FreshOnly(log, n) && FreshOnly(log, n)[k] == log[i].value
  {
    hide Fresh;
    if n > 0 {
      var m := n - 1;
      FreshOnlyIs(log, m, k);
      if Fresh(log, m) && log[m].key == k {
        assert forall i: nat :: HeldFrom(log, n, k, i) ==> i == m;
        FreshIsRequest(log, m);
        if log[m].operation == CommandOp.Put { assert HeldFrom(log, n, k, m); }
      } else {
        forall i: nat ensures HeldFrom(log, n, k, i) == HeldFrom(log, m, k, i) {}
        if i: nat :| HeldFrom(log, m, k, i) { assert HeldFrom(log, n, k, i); }
      }
    }
  }

  lemma FreshIsRequest(log: seq<Entry>, i: nat)
    requires i < |log| && Fresh(log, i)
    ensures log[i].operation == CommandOp.Put || log[i].operation == CommandOp.Delete
  {
  }

  /** A key is present exactly when the last fresh request on it is a put, and holds what it put. */
  lemma Holds(log: seq<Entry>, k: nat)
    ensures var values := ApplyAll(EMPTY, log).values;
      && (k in values <==> exists i: nat :: HeldFrom(log, |log|, k, i))
      && (forall i: nat :: HeldFrom(log, |log|, k, i) ==> k in values && values[k] == log[i].value)
  {
    hide FreshOnly, HeldFrom, ApplyAll;
    ExactlyOnce(log);
    FreshOnlyIs(log, |log|, k);
  }

  /** A fresh put is answered with its own value.  A fresh delete is answered with what the key
      held before: the value of the last fresh request on it if that was a put, else nothing. */
  lemma FreshAnswers(log: seq<Entry>, n: nat)
    requires n < |log| && Fresh(log, n)
    ensures var a := AnswerTo(ApplyAll(EMPTY, log[..n]), log[n]);
      && a.Done? && a.clientId == log[n].clientId && a.requestId == log[n].requestId
      && (log[n].operation == CommandOp.Put ==> a.found && a.value == log[n].value)
      && (log[n].operation == CommandOp.Delete ==> (a.found <==> exists i: nat :: HeldFrom(log, n, log[n].key, i)))
      && (log[n].operation == CommandOp.Delete && !a.found ==> a.value == 0)
      && (log[n].operation == CommandOp.Delete ==> forall i: nat :: HeldFrom(log, n, log[n].key, i) ==> a.value == log[i].value)
  {
    hide FreshOnly, HeldFrom, ApplyAll, Fresh, Plain;
    TracksLog(log, n);
    FreshExactly(log, n, ApplyAll(EMPTY, log[..n]));
    FreshOnlyIs(log, n, log[n].key);
    FreshIsRequest(log, n);
  }

  /** Every other request is answered from the client's latest fresh one or refused, and entries
      that are no request are ignored: `StaleRequest` exactly for a number below the largest. */
  lemma OtherAnswers(log: seq<Entry>, n: nat, id: nat)
    requires n < |log| && !Fresh(log, n)
    ensures var a := AnswerTo(ApplyAll(EMPTY, log[..n]), log[n]);
      && (a.Ignored? <==> log[n].operation == Legacy)
      && (log[n].operation != Legacy && Latest(log, n, log[n].clientId, id) ==> (a.StaleRequest? <==> log[n].requestId < id))
      && Apply(ApplyAll(EMPTY, log[..n]), log[n]) == ApplyAll(EMPTY, log[..n])
  {
    hide FreshOnly, ApplyAll, Plain, Outcome;
    var s := ApplyAll(EMPTY, log[..n]);
    TracksLog(log, n);
    FreshExactly(log, n, s);
    var c := log[n].clientId;
    if log[n].operation != Legacy && c in s.clients && Latest(log, n, c, id) {
      assert Latest(log, n, c, s.clients[c].requestId);
    }
  }

  /** No entry among the first `n` from `i` on is a later request of the client of entry `i`. */
  predicate Undisturbed(log: seq<Entry>, i: nat, n: nat)
    requires i < n <= |log|
  {
    forall j :: i < j < n && log[j].operation != Legacy && log[j].clientId == log[i].clientId ==> log[j].requestId <= log[i].requestId
  }

  /** A retry of a client's latest request is told what the request was told when it was carried
      out, and changes nothing, whatever other clients have done in between. */
  lemma {:induction false} RetryAnswersSame(log: seq<Entry>, i: nat, n: nat, retry: Entry)
    requires i < n <= |log| && Fresh(log, i) && Undisturbed(log, i, n)
    requires retry.operation != Legacy && retry.clientId == log[i].clientId && retry.requestId == log[i].requestId
    ensures var s := ApplyAll(EMPTY, log[..n]);
      AnswerTo(s, retry) == AnswerTo(ApplyAll(EMPTY, log[..i]), log[i]) && Apply(s, retry) == s
    decreases n
  {
    hide FreshOnly, Outcome, Plain;
    var k := n - 1;
    assert log[..n][..|log[..n]| - 1] == log[..k] && log[..n][|log[..n]| - 1] == log[k];
    TracksLog(log, k);
    var before := ApplyAll(EMPTY, log[..k]);
    OutcomeNumber(before.values, log[k]);
    if i == k {
      FreshExactly(log, k, before);
    } else {
      RetryAnswersSame(log, i, k, retry);
      LatestIs(log, i, k, before);
    }
  }

  lemma LatestIs(log: seq<Entry>, i: nat, k: nat, s: State)
    requires i < k <= |log| && Fresh(log, i) && Undisturbed(log, i, k) && Tracks(log, k, s)
    ensures log[i].clientId in s.clients && s.clients[log[i].clientId].requestId == log[i].requestId
  {
    hide FreshOnly;
    var c := log[i].clientId;
    assert Latest(log, k, c, s.clients[c].requestId);
  }

  /** Resuming from the state after any prefix gives the state after the whole log. */
  lemma {:induction false} Resume(s: State, log: seq<Entry>, k: nat)
    requires k <= |log|
    ensures ApplyAll(ApplyAll(s, log[..k]), log[k..]) == ApplyAll(s, log)
    decreases |log| - k
  {
    hide Apply;
    if k == |log| {
      assert log[..k] == log && log[k..] == [];
    } else {
      var n := |log| - 1;
      Resume(s, log[..n], k);
      assert log[..n][..k] == log[..k] && log[k..][..|log[k..]| - 1] == log[..n][k..];
    }
  }
}
