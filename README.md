# Request duplicate filters of mob_scrapy_redis_sentinel

This project models the request-deduplication filters of
`mob_scrapy_redis_sentinel/dupefilter.py` and proves properties of them in
Dafny. A crawl job asks its filter `request_seen(fingerprint)` for every
candidate request. The filter answers whether the fingerprint was already
recorded in the job's namespace, and records it if not. `clear` and `close`
remove the whole namespace. `log` reports a filtered duplicate and bumps a
stats counter. There are three filters:

- `RedisDupeFilter`: an exact filter on a Redis set. One `SADD` whose reply
  (members added) is zero exactly when the fingerprint was there.
- `MongoDupeFilter`: an exact filter on a Mongo collection with a unique
  index on `fp`. A lookup, then an insert whose duplicate-key error is
  swallowed.
- `RedisBloomFilter`: a probabilistic filter. It calls the Bloom helper's
  `exists` and calls `insert` only when `exists` is false.

Layout:

- `dedup.dfy` (module `Dedup`): the behaviour as values. It has one step
  function per filter (`ExactSeen`, `MongoSeen`, `BloomSeen`), the `log`
  decision (`LogDecision`), the answers of a whole run of calls, and the
  lemmas about runs.
- `stats.dfy`, `redis.dfy`, `mongo.dfy`, `bloom.dfy`: the collaborators as
  classes. These are the stats sink, the Redis server (set keys, bitmap keys,
  `DEL`), the Mongo client (one set of `fp` values per `db.collection`) and
  the Bloom helper.
- `dupefilter.dfy` (module `DupeFilter`): the three filter classes. They have
  the source's fields (`debug`, `logdupes`, the key or collection). Their
  methods have `modifies` clauses and are proved against the `Dedup` step
  functions.
- `scenarios.dfy` (module `Scenarios`): call sequences of a job, proved from
  the filters' contracts alone.

Modelling choices:

- A fingerprint is an opaque `string` given to `RequestSeen`.
- The Bloom helper's hashing scheme is a parameter, `offsets`. It gives the
  bit positions of a fingerprint. `exists` holds when all of these bits are
  set, and `insert` sets them. The bits live in the bitmap under the
  filter's own key. `RedisBloomFilter.clear` deletes exactly that key, so the
  model relies on that layout.
- The ghost field `BloomFilter.inserted` records the calls of `insert`. It
  lets `RequestSeen` state that `insert` is called exactly once, or not at
  all.
- `MongoDupeFilter.RequestSeen` takes `interleaved`. These are the documents
  other processes insert between this call's failed lookup and its insert.
  With them the swallowed `DuplicateKeyError` branch can be reached. A
  sequential caller passes `{}`, and the filter is then exactly the Redis-set
  filter (`MongoSeen`'s last ensures).
- `log` returns a `Notice` in place of the logger call. `Duplicate` stands
  for the debug message on every duplicate. `LastDuplicate` stands for the
  "no more duplicates will be shown" message. `Quiet` means no message. The
  stats sink is a parameter.

Atomicity differs between the filters:

- Only the Redis-set filter's check-and-record is one atomic store
  operation (`SADD`).
- The Mongo filter looks up and then inserts. It swallows the duplicate-key
  error of a lost race, so both racing callers are answered "not seen"
  (`MongoLostRaceAdmits`).
- The Bloom filter calls `exists` and then `insert`, two separate store
  operations.

`Scenarios.Job1` runs the job "job1" on a fresh Redis server. The calls are
`request_seen` of "a", "b" and "a", then `clear`, then "a" again. It proves
the answers are not seen, not seen, seen and not seen.

## Model

| member | source | states |
|---|---|---|
| `Dedup.ExactSeen` | mob_scrapy_redis_sentinel/dupefilter.py:170-173 | one SADD-based call answers seen exactly when fp was recorded; afterwards fp is recorded and no other fingerprint is added or removed |
| `Dedup.MongoSeen` | mob_scrapy_redis_sentinel/dupefilter.py:39-49 | seen exactly when fp was recorded, and then nothing changes; on a miss fp (and whatever other processes inserted meanwhile) is recorded and the answer is false even if the insert lost a race; with no interleaved writers it is the exact filter step |
| `Dedup.BloomSeen` | mob_scrapy_redis_sentinel/dupefilter.py:324-328 | seen exactly when all of fp's bits are set, and then no bit changes; otherwise only fp's bits are added; afterwards fp's bits are all set; on empty bits a fingerprint with bits is new |
| `Dedup.ExactAnswers` | mob_scrapy_redis_sentinel/dupefilter.py:170-173 | successive calls give one answer per fingerprint |
| `Dedup.BloomAnswers` | mob_scrapy_redis_sentinel/dupefilter.py:324-328 | successive Bloom calls give one answer per fingerprint |
| `Dedup.ExactAnswersExact` | mob_scrapy_redis_sentinel/dupefilter.py:170-173 | in any run, the i-th answer is "seen" if and only if fps[i] was recorded before the run or occurs earlier in it |
| `Dedup.ExactRepeatSeen` | mob_scrapy_redis_sentinel/dupefilter.py:170-173 | a later call with a fingerprint already asked about is always answered seen: each fingerprint is admitted at most once |
| `Dedup.ExactFirstAdmitted` | mob_scrapy_redis_sentinel/dupefilter.py:170-173 | on a fresh namespace the first call with each fingerprint is answered not seen |
| `Dedup.BloomKnownSeen` | mob_scrapy_redis_sentinel/dupefilter.py:324-328 | once a fingerprint's bits are all set, every later call with it in the run is answered seen |
| `Dedup.BloomRepeatSeen` | mob_scrapy_redis_sentinel/dupefilter.py:324-328 | no false negatives: a repeated fingerprint is always answered seen |
| `Dedup.BloomCoversExact` | mob_scrapy_redis_sentinel/dupefilter.py:324-328 | whenever the exact filter would answer seen, the Bloom filter does too (given its bits cover the exact filter's recorded set) |
| `Dedup.BloomFalsePositive` | mob_scrapy_redis_sentinel/dupefilter.py:325-326 | the converse fails: a never-inserted fingerprint can be answered seen |
| `Dedup.MongoLostRaceAdmits` | mob_scrapy_redis_sentinel/dupefilter.py:45-49 | when another process inserts fp between lookup and insert, both callers are answered not seen |
| `Dedup.LogDecision` | mob_scrapy_redis_sentinel/dupefilter.py:70-81 | a message is emitted exactly when debug or logdupes is set; in debug mode logdupes is untouched; otherwise it ends false; it never becomes true again |
| `Dedup.LogShowsAllInDebug` | mob_scrapy_redis_sentinel/dupefilter.py:221-223 | in debug mode n calls emit n messages |
| `Dedup.LogShowsFirstOnly` | mob_scrapy_redis_sentinel/dupefilter.py:224-231 | outside debug mode an instance emits at most one message in its lifetime, exactly one if its flag is set and it is called |
| `Dedup.MongoLogAsWritten` | mob_scrapy_redis_sentinel/dupefilter.py:70-81 | as written, the Mongo filter's log raises on the missing logger exactly when it has a message to emit; otherwise it decides like the other filters |
| `Dedup.MongoLogAsWrittenNeverCounts` | mob_scrapy_redis_sentinel/dupefilter.py:70-83 | as written, a fresh Mongo filter never bumps its counter, however many calls are made |
| `Stats.StatsCollector.IncValue` | mob_scrapy_redis_sentinel/dupefilter.py:83 | inc_value adds exactly one to the named counter, starting from 0, and changes no other counter |
| `Redis.RedisServer.Sadd` | mob_scrapy_redis_sentinel/dupefilter.py:171-172 | SADD replies 0 when the member was present and 1 otherwise; the member is added to that key only |
| `Redis.RedisServer.SetBits` | mob_scrapy_redis_sentinel/dupefilter.py:327 | the given bits of the key are set, nothing else changes |
| `Redis.RedisServer.Delete` | mob_scrapy_redis_sentinel/dupefilter.py:210 | DEL removes the key, whatever its kind, and replies how many keys it removed |
| `Mongo.MongoClient.FindOne` | mob_scrapy_redis_sentinel/dupefilter.py:42-43 | find_one finds a document exactly when fp is stored in the collection |
| `Mongo.MongoClient.InsertOne` | mob_scrapy_redis_sentinel/dupefilter.py:45-48 | insert_one fails with a duplicate-key error exactly when fp is already stored, and then changes nothing; otherwise it stores fp |
| `Mongo.MongoClient.ConcurrentInserts` | mob_scrapy_redis_sentinel/dupefilter.py:42-46 | documents other processes insert into the collection between this caller's `find_one` and its `insert_one`; only that collection gains them |
| `Mongo.MongoClient.DropCollection` | mob_scrapy_redis_sentinel/dupefilter.py:68 | dropping removes the collection and is a no-op on a missing one |
| `Bloom.BloomFilter.constructor` | mob_scrapy_redis_sentinel/dupefilter.py:264 | the helper works on the filter's server, key, bit and hash_number, and no insert has been made |
| `Bloom.BloomFilter.Exists` | mob_scrapy_redis_sentinel/dupefilter.py:325 | exists is true exactly when every bit of fp is set |
| `Bloom.BloomFilter.Insert` | mob_scrapy_redis_sentinel/dupefilter.py:327 | insert sets fp's bits under the filter's key, records one insert call and leaves every other key alone |
| `DupeFilter.MongoDupeFilter.constructor` | mob_scrapy_redis_sentinel/dupefilter.py:19-24 | a new filter keeps its db, collection and debug flag, and logdupes starts true |
| `DupeFilter.MongoDupeFilter.RequestSeen` | mob_scrapy_redis_sentinel/dupefilter.py:39-49 | seen exactly when fp was stored, and then the store is unchanged; otherwise only this collection changes, gaining fp, and the answer is false also when the insert hit a duplicate key |
| `DupeFilter.MongoDupeFilter.Clear` | mob_scrapy_redis_sentinel/dupefilter.py:67-68 | drops this collection only, leaving it empty; a no-op when it is missing |
| `DupeFilter.MongoDupeFilter.Close` | mob_scrapy_redis_sentinel/dupefilter.py:64-65 | has exactly the effect of clear, whatever the reason |
| `DupeFilter.MongoDupeFilter.Log` | mob_scrapy_redis_sentinel/dupefilter.py:70-83 | emits and moves logdupes as LogDecision says, and bumps "dupefilter/filtered" exactly once |
| `DupeFilter.RedisDupeFilter.constructor` | mob_scrapy_redis_sentinel/dupefilter.py:96-112 | a new filter keeps its server, key and debug flag, and logdupes starts true |
| `DupeFilter.RedisDupeFilter.RequestSeen` | mob_scrapy_redis_sentinel/dupefilter.py:158-173 | seen exactly when fp was a member of the key's set; afterwards fp is a member, no other member is added or removed, and no other key changes |
| `DupeFilter.RedisDupeFilter.Clear` | mob_scrapy_redis_sentinel/dupefilter.py:208-210 | deletes this key only, leaving no fingerprints; a no-op when the key is missing |
| `DupeFilter.RedisDupeFilter.Close` | mob_scrapy_redis_sentinel/dupefilter.py:198-206 | has exactly the effect of clear, whatever the reason |
| `DupeFilter.RedisDupeFilter.Log` | mob_scrapy_redis_sentinel/dupefilter.py:212-233 | emits and moves logdupes as LogDecision says, and bumps "dupefilter/filtered" exactly once |
| `DupeFilter.RedisBloomFilter.constructor` | mob_scrapy_redis_sentinel/dupefilter.py:245-264 | a new filter keeps its settings, logdupes starts true, and its fresh helper works on the same server and key with no insert made |
| `DupeFilter.RedisBloomFilter.RequestSeen` | mob_scrapy_redis_sentinel/dupefilter.py:312-328 | seen exactly when exists holds, and then insert is not called and no bit changes; otherwise insert is called exactly once, setting fp's bits, and the answer is false |
| `DupeFilter.RedisBloomFilter.Clear` | mob_scrapy_redis_sentinel/dupefilter.py:354-356 | deletes this key only, clearing every bit; a no-op when the key is missing |
| `DupeFilter.RedisBloomFilter.Close` | mob_scrapy_redis_sentinel/dupefilter.py:344-352 | has exactly the effect of clear, whatever the reason |
| `DupeFilter.RedisBloomFilter.Log` | mob_scrapy_redis_sentinel/dupefilter.py:358-378 | emits and moves logdupes as LogDecision says, and bumps "bloomfilter/filtered" exactly once |
| `Scenarios.RedisRepeatIsSeen` | mob_scrapy_redis_sentinel/dupefilter.py:170-173 | two calls in a row with one fingerprint: the second is answered seen |
| `Scenarios.MongoRepeatIsSeen` | mob_scrapy_redis_sentinel/dupefilter.py:42-49 | the same for the Mongo filter without concurrent writers |
| `Scenarios.BloomRepeatIsSeen` | mob_scrapy_redis_sentinel/dupefilter.py:324-328 | the same for the Bloom filter, with insert called at most once over both calls |
| `Scenarios.RedisCloseForgets` | mob_scrapy_redis_sentinel/dupefilter.py:198-210 | after close every fingerprint is new again, and a second close changes nothing |
| `Scenarios.BloomClearForgets` | mob_scrapy_redis_sentinel/dupefilter.py:354-356 | after clear, a fingerprint with at least one bit is answered not seen |
| `Scenarios.LogTwice` | mob_scrapy_redis_sentinel/dupefilter.py:224-233 | outside debug mode, of two duplicates only the first is reported, and both are counted |

## Findings

| source | as written | input that shows it | evidently intended | confidence | as-written member | corrected member |
|---|---|---|---|---|---|---|
| mob_scrapy_redis_sentinel/dupefilter.py:70-83 | `MongoDupeFilter.log` calls `self.logger.debug`, but `MongoDupeFilter` never defines `logger`. The Redis filters set it at lines 94 and 243, and Scrapy's `BaseDupeFilter` does not. The call raises `AttributeError` before `logdupes = False` and before the stats increment. | any `log` call on a new instance, with or without debug | like the Redis filters: log through the module logger, clear the flag, count every duplicate | medium; not executed (depends on Scrapy's `BaseDupeFilter`) | `Dedup.MongoLogAsWrittenNeverCounts` | `DupeFilter.MongoDupeFilter.Log` |

## Left out

- Connection bootstrapping is not modelled. This covers `pymongo.MongoClient(uri)`, `connection.from_settings`, `from_settings`, `from_crawler`, `from_spider` and their settings lookups. The constructors take the server or client directly.
- Namespace naming is not modelled. Keys from `defaults.DUPEFILTER_KEY`, with the `time.time()` timestamp or the spider name, are plain string parameters. The `defaults` module is not part of this model.
- `request_fingerprint` is a Scrapy function. The fingerprint is an input string.
- `create_index("fp", unique=True)` is not called. Its effect is built into the store: a collection is a set of `fp` values.
- `Mongo.MongoClient.InsertOne`: in MongoDB, dropping a collection also drops its unique index on `fp`. Nothing recreates it, because `create_index` runs only in the constructor (line 25). After the first `Clear`, a real `insert_one` can no longer fail with a duplicate-key error, and a racing duplicate is stored as a second document. The model keeps set semantics and still answers `DuplicateKey`. This changes only which branch a racing insert takes: `request_seen` answers false either way (line 49).
- `bloomfilter.py` is not part of this model. Its hashing scheme is the `offsets` parameter. The model assumes all bits sit under the filter's key. It does not check that `offsets` respects `bit` and `hash_number`.
- Connectivity errors and timeouts of Redis or MongoDB are not modelled. The model has no error path except the duplicate-key error.
- Concurrency is not modelled, except the Mongo lookup/insert window (the `interleaved` parameter). The Bloom filter's `exists`-then-`insert` race needs two processes and is not modelled.
- Redis's rule of one type per key (the `WRONGTYPE` error) is not modelled. One key holding both a set and a bitmap is not modelled.
- Log message text, the logger and the `request`/`spider` arguments of `log` are not modelled. The per-spider argument of `inc_value` is not modelled either.
- `BaseDupeFilter.open` is inherited and not modelled.
- `DupeFilter.MongoDupeFilter.Clear`: the source calls `self.mongo.drop_collection(self.collection)` on the client object, with the collection name alone (line 68). A `MongoClient` has no such method. The model drops `db.collection`, which is the evident intent. The driver's behaviour on the call as written is not modelled.
- `DupeFilter.MongoDupeFilter.Log` is modelled as intended, not as written (see Findings).
