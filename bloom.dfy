/** The Bloom filter helper the Bloom dupe filter delegates to.  Its hashing
    scheme is a parameter, `offsets`, giving the bit positions of a
    fingerprint; the bits live in a bitmap key of the Redis server. */
module Bloom {
  import opened Redis

  class BloomFilter {
    const server: RedisServer
    const key: string
    const bit: nat
    const hashNumber: nat
    const offsets: string -> set<nat>
    /** The fingerprints `insert` was called with, in order. */
    ghost var inserted: seq<string>

    constructor (server: RedisServer, key: string, bit: nat, hashNumber: nat, offsets: string -> set<nat>)
      ensures this.server == server && this.key == key
      ensures this.bit == bit && this.hashNumber == hashNumber && this.offsets == offsets
      ensures inserted == []
    {
      this.server := server;
      this.key := key;
      this.bit := bit;
      this.hashNumber := hashNumber;
      this.offsets := offsets;
      inserted := [];
    }

    /** The bits currently set for this filter. */
    function Bits(): set<nat>
      reads server
    {
      server.Bits(key)
    }

    /** `exists(fp)`: true exactly when every bit of `fp` is set. */
    method Exists(fp: string) returns (b: bool)
      ensures b <==> offsets(fp) <= Bits()
    {
      b := offsets(fp) <= server.Bits(key);
    }

    /** `insert(fp)`: set every bit of `fp`. */
    method Insert(fp: string)
      modifies server, this`inserted
      ensures server.bitmaps == old(server.bitmaps)[key := old(Bits()) + offsets(fp)]
      ensures server.sets == old(server.sets)
      ensures inserted == old(inserted) + [fp]
      ensures offsets(fp) <= Bits()
    {
      server.SetBits(key, offsets(fp));
      inserted := inserted + [fp];
    }
  }
}
