# Consistent-hash ring (ConsistentHashing)

A Dafny model of the `ConsistentHashing` class of
`designs/consistent-hashing/index.ts`. The ring maps keys to servers. It keeps
two parallel arrays in lock-step: `tokens` holds the 32-bit ring positions,
sorted non-decreasing, and `owners` holds the server name at each position.

- `findPlacement` is a lower-bound binary search over `tokens`.
- `addServer` hashes a server name and splices the token and the name into
  both arrays at the placement of the token.
- `getServer` fails on an empty ring. Otherwise it hashes the key and returns
  the owner of the first token at or after the key's hash, wrapping to the
  first token past the end of the ring (clockwise successor).

Files:

- `ring_spec.dfy`, module `RingSpec`: the ring as values. It defines the
  token type `[0, 2^32)`, sortedness, the reference placement `CountBelow`
  (the number of tokens below a value), splicing (`Inserted`), clockwise
  lookup (`Lookup`), and the lemmas about them.
- `consistent_hashing.dfy`, module `HashRing`: the class itself. Its `seq`
  fields are reassigned by `AddServer`. `FindPlacement` and `GetServer` read
  them and change nothing. Each method is proved against the `RingSpec`
  functions. The module also holds the file's own usage: one server `east`,
  then a lookup of `user12`.

The hash is a constructor parameter `hash: string -> Token`. It can be any
function into `[0, 2^32)`, which is the only guarantee that `hashToUint32`'s
`>>> 0` (index.ts:14) gives. Nothing in the model depends on which function
it is.

`index.ts` defines only `findPlacement`, `addServer` and `getServer`; the
model covers exactly these.

## Model

| member | source | states |
|---|---|---|
| `RingSpec.CountBelow` | designs/consistent-hashing/index.ts:20-33 | The reference placement lies in `[0, |tokens|]`. It equals `|tokens|` exactly when every token is below the value, which is the case where lookup wraps. |
| `RingSpec.CountBelowIsLowerBound` | designs/consistent-hashing/index.ts:23-31 | On a sorted ring, every token before the reference placement is `< x` and every token from it on is `>= x`: it is the leftmost lower bound. |
| `RingSpec.LowerBoundIsCountBelow` | designs/consistent-hashing/index.ts:23-33 | On any sequence, an index that splits the tokens into "below x" and "at or above x" equals the count of tokens below x. |
| `RingSpec.PlacementIsCountBelow` | designs/consistent-hashing/index.ts:17-34 | On a sorted ring, an index is a lower bound of `x` if and only if it is the reference placement. So the lower bound exists and is unique. |
| `RingSpec.Inserted` | designs/consistent-hashing/index.ts:40-41 | A splice grows the sequence by one and puts the new element at `p`. Elements before `p` stay in place. Elements from `p` on shift right by one, in the same order. |
| `RingSpec.InsertedIsPermutation` | designs/consistent-hashing/index.ts:40-41 | A splice loses nothing: the result holds the old elements plus the new one, as a multiset. |
| `RingSpec.InsertAtPlacementKeepsSorted` | designs/consistent-hashing/index.ts:37-40 | Splicing a token in at its placement keeps a sorted ring sorted. |
| `RingSpec.SuccessorIndex` | designs/consistent-hashing/index.ts:50-52 | On a non-empty ring, the wrapped placement is always a valid index. |
| `RingSpec.Lookup` | designs/consistent-hashing/index.ts:44-54 | Lookup fails exactly when the ring is empty. Otherwise it returns one of the ring's owners. |
| `RingSpec.SuccessorIsClockwise` | designs/consistent-hashing/index.ts:49-54 | On a sorted non-empty ring, the resolved position holds the first token `>= x`. When every token is below `x`, it is position 0. |
| `RingSpec.SingleServerOwnsEveryKey` | designs/consistent-hashing/index.ts:44-55 | With one entry on the ring, every key resolves to that entry's owner. |
| `RingSpec.LookupOwnTokenAfterAdd` | designs/consistent-hashing/index.ts:36-55 | After a server is spliced in at its placement, a key with the same hash resolves to the new server. The new entry goes before older entries with an equal token. |
| `RingSpec.AddRemapsOnlyToNewServer` | designs/consistent-hashing/index.ts:36-55 | Adding a server changes a key's owner only to the new server. Every other key keeps its owner, including across the wrap-around. |
| `HashRing.ConsistentHashing.constructor` | designs/consistent-hashing/index.ts:7-8 | A new ring has empty `tokens` and `owners`, and the class invariant holds. |
| `HashRing.ConsistentHashing.FindPlacement` | designs/consistent-hashing/index.ts:17-34 | The binary search terminates and returns `i <= |tokens|`. On any sequence, the token before `i` is below `input` and the token at `i` is not. On a sorted ring, `i` is the leftmost lower bound and equals the reference placement. It modifies nothing. |
| `HashRing.ConsistentHashing.AddServer` | designs/consistent-hashing/index.ts:36-42 | The hash of the name and the name itself are spliced into `tokens` and `owners` at the same placement. Sortedness and equal lengths are preserved. Duplicate names are accepted. |
| `HashRing.ConsistentHashing.GetServer` | designs/consistent-hashing/index.ts:44-55 | Returns `EmptyRing` exactly when there are no servers. Otherwise it returns the owner at the wrapped placement of the key's hash. It leaves both sequences unchanged. |
| `HashRing.SingleServerDemo` | designs/consistent-hashing/index.ts:59-61 | On a fresh ring with only `east` added, looking up `user12` returns `east`, whatever the hash function. |

## Left out

- The SHA-256 digest and hex parsing in `hashToUint32` (designs/consistent-hashing/index.ts:11-15) are a call into Node's `crypto`. They become the `hash` parameter: any function into `[0, 2^32)`.
- The `console.log` of the usage at designs/consistent-hashing/index.ts:61 is output. `SingleServerDemo` returns the value instead.
- `removeServer` and virtual nodes do not exist in `index.ts` and are not modelled.
- `getServer` throws an `Error` with a message. The model returns the `EmptyRing` value and does not model the message text.
- Tokens are JavaScript numbers (doubles). Every value involved is an integer below 2^32, which a double holds exactly, so the model uses unbounded integers restricted to that range.
- The arrays are mutated in place with `splice`. The model reassigns `seq` fields instead, so it does not capture aliasing of the arrays by outside code. The class keeps them private.
- The rate limiter, the key-value-store router stub and the Express server and client wiring are not part of this model.
