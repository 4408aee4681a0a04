/** Call sequences of a crawl job against the filters, with what a caller
    can conclude from the filters' contracts alone. */
module Scenarios {
  import opened Dedup
  import opened Stats
  import opened Redis
  import opened Mongo
  import opened DupeFilter

  /** Two calls in a row with one fingerprint: the second is answered "seen". */
  method RedisRepeatIsSeen(f: RedisDupeFilter, fp: string) returns (first: bool, second: bool)
    modifies f.server
    ensures first <==> fp in old(f.Fingerprints())
    ensures second
    ensures f.Fingerprints() == old(f.Fingerprints()) + {fp}
  {
    first := f.RequestSeen(fp);
    second := f.RequestSeen(fp);
  }

  /** The same for the Mongo filter, with no other process writing. */
  method MongoRepeatIsSeen(f: MongoDupeFilter, fp: string) returns (first: bool, second: bool)
    modifies f.client
    ensures first <==> fp in old(f.Fingerprints())
    ensures second
    ensures f.Fingerprints() == old(f.Fingerprints()) + {fp}
  {
    first := f.RequestSeen(fp, {});
    second := f.RequestSeen(fp, {});
  }

  /** The same for the Bloom filter, which also calls `insert` at most once. */
  method BloomRepeatIsSeen(f: RedisBloomFilter, fp: string) returns (first: bool, second: bool)
    requires f.Valid()
    modifies f.server, f.bf`inserted
    ensures first <==> f.bf.offsets(fp) <= old(f.Bits())
    ensures second
    ensures f.bf.inserted == old(f.bf.inserted) + if first then [] else [fp]
  {
    first := f.RequestSeen(fp);
    second := f.RequestSeen(fp);
  }

  /** After `close`, whatever the reason, every fingerprint is new again, and
      a second `close` changes nothing. */
  method RedisCloseForgets(f: RedisDupeFilter, reason: string, fp: string) returns (seen: bool)
    modifies f.server
    ensures !seen
  {
    f.Close(reason);
    ghost var closed := f.server.sets;
    ghost var closedBits := f.server.bitmaps;
    f.Close(reason);
    assert f.server.sets == closed && f.server.bitmaps == closedBits;
    seen := f.RequestSeen(fp);
  }

  /** After `clear`, the Bloom filter answers "not seen" for a fingerprint
      that has at least one bit. */
  method BloomClearForgets(f: RedisBloomFilter, fp: string) returns (seen: bool)
    requires f.Valid() && f.bf.offsets(fp) != {}
    modifies f.server, f.bf`inserted
    ensures !seen
  {
    f.Clear();
    seen := f.RequestSeen(fp);
  }

  /** The job "job1" on a fresh Redis server: "a", "b", "a", clear, "a". */
  method Job1()
  {
    var server := new RedisServer();
    var f := new RedisDupeFilter(server, "job1", false);
    var a1 := f.RequestSeen("a");
    var b1 := f.RequestSeen("b");
    var a2 := f.RequestSeen("a");
    f.Clear();
    var a3 := f.RequestSeen("a");
    assert !a1 && !b1 && a2 && !a3;
  }

  /** Outside debug mode, of two duplicates only the first is reported, and
      both are counted. */
  method LogTwice(f: RedisDupeFilter, stats: StatsCollector) returns (first: Notice, second: Notice)
    requires !f.debug
    modifies f`logdupes, stats
    ensures first == (if old(f.logdupes) then LastDuplicate else Quiet)
    ensures second == Quiet && !f.logdupes
    ensures stats.Value(DUPEFILTER_COUNTER) == old(stats.Value(DUPEFILTER_COUNTER)) + 2
  {
    first := f.Log(stats);
    second := f.Log(stats);
  }
}
