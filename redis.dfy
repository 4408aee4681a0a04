/** The Redis server the filters share, reduced to the commands they use:
    set-valued keys for `SADD`, bitmap keys for the Bloom filter's bits,
    and `DEL`, which removes a key of either kind. */
module Redis {

  class RedisServer {
    var sets: map<string, set<string>>
    var bitmaps: map<string, set<nat>>

    constructor ()
      ensures sets == map[] && bitmaps == map[]
    {
      sets := map[];
      bitmaps := map[];
    }

    /** The members of a set key; a missing key reads as the empty set. */
    function Members(key: string): set<string>
      reads this
    {
      if key in sets then sets[key] else {}
    }

    /** The offsets of the set bits of a bitmap key; a missing key has none. */
    function Bits(key: string): set<nat>
      reads this
    {
      if key in bitmaps then bitmaps[key] else {}
    }

    /** `SADD key member`: replies with the number of members added. */
    method Sadd(key: string, member: string) returns (added: nat)
      modifies this
      ensures added == if member in old(Members(key)) then 0 else 1
      ensures sets == old(sets)[key := old(Members(key)) + {member}]
      ensures bitmaps == old(bitmaps)
    {
      added := if member in Members(key) then 0 else 1;
      sets := sets[key := Members(key) + {member}];
    }

    /** `SETBIT key offset 1` for every offset given. */
    method SetBits(key: string, offsets: set<nat>)
      modifies this
      ensures bitmaps == old(bitmaps)[key := old(Bits(key)) + offsets]
      ensures sets == old(sets)
    {
      bitmaps := bitmaps[key := Bits(key) + offsets];
    }

    /** `DEL key`: replies with the number of keys removed. */
    method Delete(key: string) returns (removed: nat)
      modifies this
      ensures removed == if key in old(sets) || key in old(bitmaps) then 1 else 0
      ensures sets == old(sets) - {key} && bitmaps == old(bitmaps) - {key}
      ensures Members(key) == {} && Bits(key) == {}
    {
      removed := if key in sets || key in bitmaps then 1 else 0;
      sets := sets - {key};
      bitmaps := bitmaps - {key};
    }
  }
}
