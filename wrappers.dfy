/** Option/Result wrappers, the errors the game's code throws, and three sequence laws. */
module Wrappers {

  /** `None` stands for JavaScript's `undefined`/`null`. */
  datatype Option<+T> = None | Some(value: T)

  /** The exceptions thrown by the modelled code, one constructor per kind. */
  datatype Error =
    | TypeError               // a property read or method call on `undefined`
    | UndefinedExtents        // Platform.getCollisionType: player extents missing
    | MissingPlatformConfig   // Platform.applyCollision without a platform config
    | NotAttached             // a condiment followed its platform before being attached
    | NoObjectsLayer          // BeatmapMode: the tilemap has no "objects" layer
    | PlayerDataNotFound      // PlayerContext.getPlayerData: no player entry in the registry
    | InvalidPayload          // PlayerContext.setPlayerData: the payload has the wrong type

  /** `o ?? default` for a property that is either present or absent. */
  function OptionOr<T>(o: Option<T>, default: T): T
  {
    match o
    case Some(v) => v
    case None => default
  }

  datatype Result<+T> = Ok(value: T) | Err(error: Error)

  datatype Outcome = Pass | Fail(error: Error)

  /** Regrouping a concatenation of three sequences. */
  lemma AppendAssociative<T>(a: seq<T>, b: seq<T>, c: seq<T>)
    ensures (a + b) + c == a + (b + c)
  {
  }

  /** A non-empty prefix is the shorter prefix and its last element. */
  lemma PrefixSnoc<T>(s: seq<T>, n: nat)
    requires 0 < n <= |s|
    ensures s[..n] == s[..n - 1] + [s[n - 1]]
  {
  }

  /** Occurrences in a concatenation add up. */
  lemma CountAppend<T>(a: seq<T>, b: seq<T>, x: T)
    ensures multiset(a + b)[x] == multiset(a)[x] + multiset(b)[x]
  {
  }
}
