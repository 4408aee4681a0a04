/** The abstract behaviour of the duplicate filters, as values.

    One call of `request_seen` is a step from the recorded state of a
    namespace to an answer and a new recorded state.  The exact filters
    (a Redis set, a Mongo collection with a unique index on `fp`) record
    fingerprints; the Bloom filter records bit positions.  The filter
    classes in module DupeFilter are proved against these steps, and the
    lemmas below say what a whole run of calls answers.
 */
module Dedup {

  /** The answer of one `request_seen` call and the state it leaves. */
  datatype Seen<S> = Seen(seen: bool, after: S)

  /** One call on an exact filter: a Redis `SADD`, whose reply is the
      number of members added, read as "seen" when it is zero. */
  function ExactSeen(recorded: set<string>, fp: string): (r: Seen<set<string>>)
    ensures r.seen <==> fp in recorded
    ensures fp in r.after
    ensures r.after - {fp} == recorded - {fp}
  {
    Seen(fp in recorded, recorded + {fp})
  }

  /** One call on the Mongo filter: a lookup by `fp`, and on a miss an
      insert whose duplicate-key failure is swallowed.  `interleaved` are
      the fingerprints other processes insert between this call's lookup
      and its insert; a sequential caller passes the empty set. */
  function MongoSeen(recorded: set<string>, fp: string, interleaved: set<string>): (r: Seen<set<string>>)
    ensures r.seen <==> fp in recorded
    ensures r.seen ==> r.after == recorded
    ensures !r.seen ==> fp in r.after && recorded + interleaved <= r.after
    ensures r.after - {fp} <= recorded + interleaved
    ensures interleaved == {} ==> r == ExactSeen(recorded, fp)
  {
    if fp in recorded then
      assert recorded + {fp} == recorded;
      Seen(true, recorded)
    else
      assert interleaved == {} ==> recorded + interleaved == recorded;
      Seen(false, recorded + interleaved + {fp})
  }

  /** One call on the Bloom filter: `exists` is true when every bit the
      hashing scheme assigns to `fp` is set; only when it is false are
      those bits set by `insert`. */
  function BloomSeen(offsets: string -> set<nat>, bits: set<nat>, fp: string): (r: Seen<set<nat>>)
    ensures r.seen <==> offsets(fp) <= bits
    ensures r.seen ==> r.after == bits
    ensures bits <= r.after && offsets(fp) <= r.after
    ensures r.after - bits <= offsets(fp)
    ensures bits == {} && offsets(fp) != {} ==> !r.seen
  {
    if offsets(fp) <= bits then Seen(true, bits) else Seen(false, bits + offsets(fp))
  }

  /** The answers of successive calls on an exact filter. */
  function ExactAnswers(recorded: set<string>, fps: seq<string>): (answers: seq<bool>)
    ensures |answers| == |fps|
    decreases |fps|
  {
    if fps == [] then []
    else
      var step := ExactSeen(recorded, fps[0]);
      [step.seen] + ExactAnswers(step.after, fps[1..])
  }

  /** The answers of successive calls on the Bloom filter. */
  function BloomAnswers(offsets: string -> set<nat>, bits: set<nat>, fps: seq<string>): (answers: seq<bool>)
    ensures |answers| == |fps|
    decreases |fps|
  {
    if fps == [] then []
    else
      var step := BloomSeen(offsets, bits, fps[0]);
      [step.seen] + BloomAnswers(offsets, step.after, fps[1..])
  }

  /** An exact filter answers "seen" exactly for a fingerprint that was
      recorded before the run or occurred earlier in it. */
  lemma {:induction false} ExactAnswersExact(recorded: set<string>, fps: seq<string>, i: nat)
    requires i < |fps|
    ensures ExactAnswers(recorded, fps)[i] <==> fps[i] in recorded || fps[i] in fps[..i]
    decreases i
  {
    if i > 0 {
      ExactAnswersExact(recorded + {fps[0]}, fps[1..], i - 1);
      assert fps[..i] == [fps[0]] + fps[1..][..i - 1];
    }
  }

  /** Of two calls with one fingerprint, the later is answered "seen", so
      an exact filter admits each fingerprint at most once. */
  lemma ExactRepeatSeen(recorded: set<string>, fps: seq<string>, i: nat, j: nat)
    requires i < j < |fps| && fps[i] == fps[j]
    ensures ExactAnswers(recorded, fps)[j]
  {
    ExactAnswersExact(recorded, fps, j);
    assert fps[..j][i] == fps[j];
  }

  /** On a fresh namespace, the first call with a fingerprint is answered
      "not seen". */
  lemma ExactFirstAdmitted(fps: seq<string>, i: nat)
    requires i < |fps|
    requires forall k :: 0 <= k < i ==> fps[k] != fps[i]
    ensures !ExactAnswers({}, fps)[i]
  {
    ExactAnswersExact({}, fps, i);
  }

  /** Once the bits of a fingerprint are all set, the Bloom filter answers
      "seen" for it for the rest of the run: bits are never cleared. */
  lemma {:induction false} BloomKnownSeen(offsets: string -> set<nat>, bits: set<nat>, fps: seq<string>, j: nat)
    requires j < |fps| && offsets(fps[j]) <= bits
    ensures BloomAnswers(offsets, bits, fps)[j]
    decreases j
  {
    if j > 0 {
      BloomKnownSeen(offsets, BloomSeen(offsets, bits, fps[0]).after, fps[1..], j - 1);
    }
  }

  /** No false negatives: a repeated fingerprint is always answered "seen". */
  lemma {:induction false} BloomRepeatSeen(offsets: string -> set<nat>, bits: set<nat>, fps: seq<string>, i: nat, j: nat)
    requires i < j < |fps| && fps[i] == fps[j]
    ensures BloomAnswers(offsets, bits, fps)[j]
    decreases i
  {
    var after := BloomSeen(offsets, bits, fps[0]).after;
    if i == 0 {
      BloomKnownSeen(offsets, after, fps[1..], j - 1);
    } else {
      BloomRepeatSeen(offsets, after, fps[1..], i - 1, j - 1);
    }
  }

  /** The Bloom filter answers "seen" whenever the exact filter would, provided
      its bits cover what the exact filter has recorded: it may admit fewer
      requests (false positives), never more. */
  lemma BloomCoversExact(offsets: string -> set<nat>, recorded: set<string>, bits: set<nat>, fps: seq<string>, i: nat)
    requires forall fp :: fp in recorded ==> offsets(fp) <= bits
    requires i < |fps|
    ensures ExactAnswers(recorded, fps)[i] ==> BloomAnswers(offsets, bits, fps)[i]
  {
    ExactAnswersExact(recorded, fps, i);
    if fps[i] in recorded {
      BloomKnownSeen(offsets, bits, fps, i);
    } else if fps[i] in fps[..i] {
      var k :| 0 <= k < i && fps[..i][k] == fps[i];
      BloomRepeatSeen(offsets, bits, fps, k, i);
    }
  }

  /** A false positive: with two fingerprints whose bits cover a third's, the
      third is answered "seen" although it was never inserted. */
  lemma BloomFalsePositive()
    ensures BloomAnswers(fp => if fp == "a" then {1} else if fp == "b" then {2} else {1, 2}, {}, ["a", "b", "c"])
            == [false, false, true]
  {
  }

  /** The lost race of the Mongo filter: when another process inserts `fp`
      between this call's lookup and its insert, the insert fails on the
      unique index, the failure is swallowed and the call still answers
      "not seen", so both processes admit the request. */
  lemma MongoLostRaceAdmits(recorded: set<string>, fp: string)
    requires fp !in recorded
    ensures !MongoSeen(recorded, fp, {}).seen
    ensures !MongoSeen(recorded, fp, {fp}).seen
    ensures MongoSeen(recorded, fp, {fp}).after == recorded + {fp}
  {
  }

  /** What `log` emits: a message for every duplicate in debug mode, the
      "no more duplicates will be shown" message once otherwise. */
  datatype Notice = Quiet | Duplicate | LastDuplicate

  /** The notice a `log` call emits and the `logdupes` flag it leaves. */
  datatype Logged = Logged(notice: Notice, logdupes: bool)

  function LogDecision(debug: bool, logdupes: bool): (r: Logged)
    ensures r.notice != Quiet <==> debug || logdupes
    ensures r.notice == Duplicate <==> debug
    ensures r.logdupes ==> logdupes
    ensures debug ==> r.logdupes == logdupes
    ensures !debug ==> !r.logdupes
  {
    if debug then Logged(Duplicate, logdupes)
    else if logdupes then Logged(LastDuplicate, false)
    else Logged(Quiet, false)
  }

  /** The notices of `n` successive `log` calls on one instance. */
  function LogNotices(debug: bool, logdupes: bool, n: nat): (ns: seq<Notice>)
    ensures |ns| == n
  {
    if n == 0 then []
    else
      var r := LogDecision(debug, logdupes);
      [r.notice] + LogNotices(debug, r.logdupes, n - 1)
  }

  /** The number of messages among some notices. */
  function Shown(ns: seq<Notice>): nat
  {
    if ns == [] then 0 else (if ns[0] == Quiet then 0 else 1) + Shown(ns[1..])
  }

  /** In debug mode every one of `n` calls emits a message. */
  lemma {:induction false} LogShowsAllInDebug(logdupes: bool, n: nat)
    ensures Shown(LogNotices(true, logdupes, n)) == n
  {
    if n > 0 {
      LogShowsAllInDebug(logdupes, n - 1);
      assert LogNotices(true, logdupes, n)[1..] == LogNotices(true, logdupes, n - 1);
    }
  }

  /** Outside debug mode an instance emits at most one message in its
      lifetime: one if its flag is still set and it is called at all. */
  lemma {:induction false} LogShowsFirstOnly(logdupes: bool, n: nat)
    ensures Shown(LogNotices(false, logdupes, n)) == if logdupes && n > 0 then 1 else 0
  {
    if n > 0 {
      LogShowsFirstOnly(false, n - 1);
      assert LogNotices(false, logdupes, n)[1..] == LogNotices(false, false, n - 1);
    }
  }

  /** How a `log` call of the Mongo filter ends as written: it reaches
      `self.logger`, which that class never defines, whenever it has a
      message to emit, and so raises before it clears `logdupes` and before
      it bumps the stats counter. */
  datatype LogAttempt = Completed(logged: Logged) | MissingLogger

  function MongoLogAsWritten(debug: bool, logdupes: bool): (r: LogAttempt)
    ensures r.MissingLogger? <==> LogDecision(debug, logdupes).notice != Quiet
    ensures r.Completed? ==> r.logged == LogDecision(debug, logdupes)
  {
    if debug || logdupes then MissingLogger else Completed(LogDecision(debug, logdupes))
  }

  /** The number of stats increments of `n` successive `log` calls of the
      Mongo filter as written; a call that raises leaves the instance as
      it was. */
  function MongoCountedAsWritten(debug: bool, logdupes: bool, n: nat): (count: nat)
  {
    if n == 0 then 0
    else
      match MongoLogAsWritten(debug, logdupes)
      case MissingLogger => MongoCountedAsWritten(debug, logdupes, n - 1)
      case Completed(r) => 1 + MongoCountedAsWritten(debug, r.logdupes, n - 1)
  }

  /** A fresh Mongo filter as written never counts a filtered duplicate, in
      debug mode or not: every call raises and the flag stays set. */
  lemma {:induction false} MongoLogAsWrittenNeverCounts(debug: bool, n: nat)
    ensures MongoCountedAsWritten(debug, true, n) == 0
  {
    if n > 0 {
      MongoLogAsWrittenNeverCounts(debug, n - 1);
    }
  }
}
