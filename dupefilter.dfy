/** The three request duplicate filters.  Each keeps its seen state in a
    shared store, answers `request_seen` for a fingerprint, removes the
    whole namespace on `clear` and `close`, and on `log` reports a filtered
    duplicate and bumps a stats counter.  The fingerprint of a request is an
    input: computing it is not part of this model. */
module DupeFilter {
  import opened Dedup
  import opened Stats
  import opened Redis
  import opened Mongo
  import opened Bloom

  /** The stats counter the Mongo and Redis-set filters bump. */
  const DUPEFILTER_COUNTER: string := "dupefilter/filtered"
  /** The stats counter the Bloom filter bumps. */
  const BLOOMFILTER_COUNTER: string := "bloomfilter/filtered"

  /** Exact filter on a Mongo collection with a unique index on `fp`. */
  class MongoDupeFilter {
    const client: MongoClient
    const db: string
    const collection: string
    const debug: bool
    var logdupes: bool

    constructor (client: MongoClient, db: string, collection: string, debug: bool)
      ensures this.client == client && this.db == db && this.collection == collection
      ensures this.debug == debug && logdupes
    {
      this.client := client;
      this.db := db;
      this.collection := collection;
      this.debug := debug;
      logdupes := true;
    }

    /** The fingerprints recorded in this filter's collection. */
    function Fingerprints(): set<string>
      reads client
    {
      client.Docs(db, collection)
    }

    /** `request_seen`: look `fp` up; on a miss insert it and answer false,
        also when the insert fails with a duplicate-key error.  The
        documents `interleaved` are inserted by other processes between the
        lookup and the insert; a sequential caller passes the empty set. */
    method RequestSeen(fp: string, interleaved: set<string>) returns (seen: bool)
      modifies client
      ensures Seen(seen, Fingerprints()) == MongoSeen(old(Fingerprints()), fp, interleaved)
      ensures seen <==> fp in old(Fingerprints())
      ensures seen ==> client.collections == old(client.collections)
      ensures !seen ==>
                client.collections == old(client.collections)[(db, collection) := old(Fingerprints()) + interleaved + {fp}]
    {
      var found := client.FindOne(db, collection, fp);
      if found {
        return true;
      }
      client.ConcurrentInserts(db, collection, interleaved);
      var outcome := client.InsertOne(db, collection, fp);
      match outcome {
        case Inserted =>
        case DuplicateKey =>
          // the insert lost a race with another process: swallowed
          assert fp in interleaved && old(Fingerprints()) + interleaved + {fp} == old(Fingerprints()) + interleaved;
      }
      return false;
    }

    /** `clear`: drop the collection. */
    method Clear()
      modifies client
      ensures client.collections == old(client.collections) - {(db, collection)}
      ensures Fingerprints() == {}
      ensures (db, collection) !in old(client.collections) ==> client.collections == old(client.collections)
    {
      client.DropCollection(db, collection);
    }

    /** `close`: the same as `clear`, whatever the reason. */
    method Close(reason: string)
      modifies client
      ensures client.collections == old(client.collections) - {(db, collection)}
      ensures Fingerprints() == {}
      ensures (db, collection) !in old(client.collections) ==> client.collections == old(client.collections)
    {
      Clear();
    }

    /** `log`: report a filtered duplicate and bump "dupefilter/filtered". */
    method Log(stats: StatsCollector) returns (notice: Notice)
      modifies this`logdupes, stats
      ensures Logged(notice, logdupes) == LogDecision(debug, old(logdupes))
      ensures stats.values == old(stats.values)[DUPEFILTER_COUNTER := old(stats.Value(DUPEFILTER_COUNTER)) + 1]
    {
      if debug {
        notice := Duplicate;
      } else if logdupes {
        notice := LastDuplicate;
        logdupes := false;
      } else {
        notice := Quiet;
      }
      stats.IncValue(DUPEFILTER_COUNTER);
    }
  }

  /** Exact filter on a Redis set key. */
  class RedisDupeFilter {
    const server: RedisServer
    const key: string
    const debug: bool
    var logdupes: bool

    constructor (server: RedisServer, key: string, debug: bool)
      ensures this.server == server && this.key == key && this.debug == debug && logdupes
    {
      this.server := server;
      this.key := key;
      this.debug := debug;
      logdupes := true;
    }

    /** The fingerprints recorded under this filter's key. */
    function Fingerprints(): set<string>
      reads server
    {
      server.Members(key)
    }

    /** `request_seen`: `SADD` the fingerprint; seen when nothing was added. */
    method RequestSeen(fp: string) returns (seen: bool)
      modifies server
      ensures Seen(seen, Fingerprints()) == ExactSeen(old(Fingerprints()), fp)
      ensures seen <==> fp in old(Fingerprints())
      ensures fp in Fingerprints() && Fingerprints() - {fp} == old(Fingerprints()) - {fp}
      ensures server.sets == old(server.sets)[key := Fingerprints()]
      ensures server.bitmaps == old(server.bitmaps)
    {
      var added := server.Sadd(key, fp);
      seen := added == 0;
    }

    /** `clear`: delete the key. */
    method Clear()
      modifies server
      ensures server.sets == old(server.sets) - {key} && server.bitmaps == old(server.bitmaps) - {key}
      ensures Fingerprints() == {}
      ensures key !in old(server.sets) && key !in old(server.bitmaps) ==>
                server.sets == old(server.sets) && server.bitmaps == old(server.bitmaps)
    {
      var _ := server.Delete(key);
    }

    /** `close`: the same as `clear`, whatever the reason. */
    method Close(reason: string)
      modifies server
      ensures server.sets == old(server.sets) - {key} && server.bitmaps == old(server.bitmaps) - {key}
      ensures Fingerprints() == {}
      ensures key !in old(server.sets) && key !in old(server.bitmaps) ==>
                server.sets == old(server.sets) && server.bitmaps == old(server.bitmaps)
    {
      Clear();
    }

    /** `log`: report a filtered duplicate and bump "dupefilter/filtered". */
    method Log(stats: StatsCollector) returns (notice: Notice)
      modifies this`logdupes, stats
      ensures Logged(notice, logdupes) == LogDecision(debug, old(logdupes))
      ensures stats.values == old(stats.values)[DUPEFILTER_COUNTER := old(stats.Value(DUPEFILTER_COUNTER)) + 1]
    {
      if debug {
        notice := Duplicate;
      } else if logdupes {
        notice := LastDuplicate;
        logdupes := false;
      } else {
        notice := Quiet;
      }
      stats.IncValue(DUPEFILTER_COUNTER);
    }
  }

  /** Probabilistic filter on a Bloom filter kept under a Redis key. */
  class RedisBloomFilter {
    const server: RedisServer
    const key: string
    const debug: bool
    const bit: nat
    const hashNumber: nat
    const bf: BloomFilter
    var logdupes: bool

    /** The helper works on this filter's server and key. */
    predicate Valid()
    {
      bf.server == server && bf.key == key
    }

    constructor (server: RedisServer, key: string, debug: bool, bit: nat, hashNumber: nat,
                 offsets: string -> set<nat>)
      ensures Valid() && fresh(bf)
      ensures this.server == server && this.key == key && this.debug == debug && logdupes
      ensures this.bit == bit && this.hashNumber == hashNumber
      ensures bf.bit == bit && bf.hashNumber == hashNumber && bf.offsets == offsets && bf.inserted == []
    {
      this.server := server;
      this.key := key;
      this.debug := debug;
      logdupes := true;
      this.bit := bit;
      this.hashNumber := hashNumber;
      bf := new BloomFilter(server, key, bit, hashNumber, offsets);
    }

    /** The bits set for this filter. */
    function Bits(): set<nat>
      reads server
    {
      server.Bits(key)
    }

    /** `request_seen`: seen when `exists` holds; otherwise insert once. */
    method RequestSeen(fp: string) returns (seen: bool)
      requires Valid()
      modifies server, bf`inserted
      ensures Seen(seen, Bits()) == BloomSeen(bf.offsets, old(Bits()), fp)
      ensures seen <==> bf.offsets(fp) <= old(Bits())
      ensures seen ==> bf.inserted == old(bf.inserted) && server.bitmaps == old(server.bitmaps)
      ensures !seen ==> bf.inserted == old(bf.inserted) + [fp] &&
                        server.bitmaps == old(server.bitmaps)[key := old(Bits()) + bf.offsets(fp)]
      ensures server.sets == old(server.sets)
    {
      var present := bf.Exists(fp);
      if present {
        return true;
      }
      bf.Insert(fp);
      return false;
    }

    /** `clear`: delete the key, and with it every bit. */
    method Clear()
      modifies server
      ensures server.sets == old(server.sets) - {key} && server.bitmaps == old(server.bitmaps) - {key}
      ensures Bits() == {}
      ensures key !in old(server.sets) && key !in old(server.bitmaps) ==>
                server.sets == old(server.sets) && server.bitmaps == old(server.bitmaps)
    {
      var _ := server.Delete(key);
    }

    /** `close`: the same as `clear`, whatever the reason. */
    method Close(reason: string)
      modifies server
      ensures server.sets == old(server.sets) - {key} && server.bitmaps == old(server.bitmaps) - {key}
      ensures Bits() == {}
      ensures key !in old(server.sets) && key !in old(server.bitmaps) ==>
                server.sets == old(server.sets) && server.bitmaps == old(server.bitmaps)
    {
      Clear();
    }

    /** `log`: report a filtered duplicate and bump "bloomfilter/filtered". */
    method Log(stats: StatsCollector) returns (notice: Notice)
      modifies this`logdupes, stats
      ensures Logged(notice, logdupes) == LogDecision(debug, old(logdupes))
      ensures stats.values == old(stats.values)[BLOOMFILTER_COUNTER := old(stats.Value(BLOOMFILTER_COUNTER)) + 1]
    {
      if debug {
        notice := Duplicate;
      } else if logdupes {
        notice := LastDuplicate;
        logdupes := false;
      } else {
        notice := Quiet;
      }
      stats.IncValue(BLOOMFILTER_COUNTER);
    }
  }
}
