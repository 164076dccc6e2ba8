/**
 * The ConsistentHashing class: a consistent-hash ring held in two parallel
 * sequences that addServer splices in place and getServer only reads.
 *
 * The SHA-256 hash of the TypeScript class (hashToUint32) is a parameter of
 * the ring: any function from strings to 32-bit ring positions.
 */
module HashRing {
  import opened RingSpec

  class ConsistentHashing {
    /** Ring positions, sorted non-decreasing; parallel with `owners`. */
    var tokens: seq<Token>
    /** Server name at each position of `tokens`. */
    var owners: seq<string>
    /** The hash from names and keys to ring positions. */
    const hash: string -> Token

    /** The parallel sequences have equal length and the ring is sorted. */
    ghost predicate Valid()
      reads this
    {
      |tokens| == |owners| && Sorted(tokens)
    }

    constructor (hash: string -> Token)
      ensures Valid()
      ensures tokens == [] && owners == [] && this.hash == hash
    {
      this.hash := hash;
      tokens := [];
      owners := [];
    }

    /**
     * Lower-bound binary search over `tokens`. On any sequence, the token
     * before the result is below `input` and the token at it is not; on a
     * sorted ring the result is the leftmost index at which `input` can be
     * inserted. Reads `tokens` and changes nothing.
     */
    method FindPlacement(input: Token) returns (i: nat)
      ensures i <= |tokens|
      ensures i == 0 || tokens[i - 1] < input
      ensures i == |tokens| || tokens[i] >= input
      ensures Sorted(tokens) ==> IsLowerBound(tokens, input, i) && i == CountBelow(tokens, input)
    {
      var arr := tokens;
      var low, high := 0, |arr|;
      while low < high
        invariant 0 <= low <= high <= |arr|
        invariant low == 0 || arr[low - 1] < input
        invariant high == |arr| || arr[high] >= input
        invariant Sorted(arr) ==> forall j :: 0 <= j < low ==> arr[j] < input
        invariant Sorted(arr) ==> forall j :: high <= j < |arr| ==> arr[j] >= input
        decreases high - low
      {
        var mid := (high + low) / 2;
        if arr[mid] < input {
          low := mid + 1;
        } else {
          high := mid;
        }
      }
      i := low;
      if Sorted(tokens) {
        PlacementIsCountBelow(tokens, input, i);
      }
    }

    /**
     * Hashes `serverName` and splices the token and the name into both
     * sequences at the placement of the token. Duplicate names are accepted.
     */
    method AddServer(serverName: string)
      requires Valid()
      modifies this
      ensures Valid()
      ensures var p := CountBelow(old(tokens), hash(serverName));
        && tokens == Inserted(old(tokens), p, hash(serverName))
        && owners == Inserted(old(owners), p, serverName)
    {
      var serverId := hash(serverName);
      var serverInsertionIndex := FindPlacement(serverId);
      InsertAtPlacementKeepsSorted(tokens, serverId);
      tokens := Inserted(tokens, serverInsertionIndex, serverId);
      owners := Inserted(owners, serverInsertionIndex, serverName);
    }

    /**
     * The owner of `key`: the server at the first token at or after the
     * key's hash, wrapping to the first token; EmptyRing when no server
     * has been added.
     */
    method GetServer(key: string) returns (r: LookupResult)
      requires Valid()
      ensures r == EmptyRing <==> |owners| == 0
      ensures r == Lookup(tokens, owners, hash(key))
      ensures r.Owner? ==> r.name == owners[SuccessorIndex(tokens, hash(key))]
    {
      if |owners| == 0 {
        return EmptyRing;
      }
      var keyId := hash(key);
      var keyIndex := FindPlacement(keyId);
      var i := if keyIndex == |tokens| then 0 else keyIndex;
      r := Owner(owners[i]);
    }
  }

  /**
   * The module-level usage of the class: one server "east", then a lookup of
   * "user12", which resolves to "east" whatever the hash.
   */
  method SingleServerDemo(hash: string -> Token) returns (r: LookupResult)
    ensures r == Owner("east")
  {
    var ring := new ConsistentHashing(hash);
    ring.AddServer("east");
    r := ring.GetServer("user12");
  }
}
