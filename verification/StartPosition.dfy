/**
 Start positions and the strings they are persisted as, and what a child shard inherits.
 */
module StartPosition {
  import opened Types

  const SENTINEL_LATEST: string := "LATEST"

  datatype StartPosition = TrimHorizon | Latest | After(seqno: string)

  /** No checkpoint is the oldest record; only the sentinel is the newest. */
  function FromCheckpoint(checkpoint: Option<string>): (p: StartPosition)
    ensures p.TrimHorizon? <==> checkpoint.None?
    ensures p.Latest? <==> checkpoint == Some("LATEST")
    ensures p.After? ==> checkpoint == Some(p.seqno)
  {
    match checkpoint
    case None => TrimHorizon
    case Some(s) => if s == SENTINEL_LATEST then Latest else After(s)
  }

  function AsCheckpoint(p: StartPosition): (checkpoint: Option<string>)
    ensures checkpoint.None? <==> p.TrimHorizon?
    ensures p.Latest? ==> checkpoint == Some("LATEST")
    ensures p.After? ==> checkpoint == Some(p.seqno)
  {
    match p
    case TrimHorizon => None
    case Latest => Some(SENTINEL_LATEST)
    case After(s) => Some(s)
  }

  predicate IsStartMode(p: StartPosition) {
    !p.After?
  }

  /** Every stored checkpoint survives decoding and encoding. */
  lemma EncodeAfterDecode(checkpoint: Option<string>)
    ensures AsCheckpoint(FromCheckpoint(checkpoint)) == checkpoint
  {
  }

  /** A position survives being stored, unless it is a sequence number spelled like the sentinel. */
  lemma DecodeAfterEncode(p: StartPosition)
    ensures FromCheckpoint(AsCheckpoint(p)) == p <==> p != After(SENTINEL_LATEST)
  {
    match p
    case After(s) => assert s == SENTINEL_LATEST <==> p == After(SENTINEL_LATEST);
    case _ =>
  }

  /** The checkpoint a new child starts from, given its parents' checkpoints. */
  method ChildSeedCheckpoint(parents: seq<Option<string>>) returns (seed: Option<string>)
    ensures seed == if parents != [] && forall c :: c in parents ==> c == Some(SENTINEL_LATEST)
                    then Some(SENTINEL_LATEST) else None
  {
    if parents == [] {
      return None;
    }
    var inherited: Option<StartPosition> := None;
    for i := 0 to |parents|
      invariant forall c :: c in parents[..i] ==> c == Some(SENTINEL_LATEST)
      invariant inherited == if i == 0 then None else Some(Latest)
    {
      assert parents[..i + 1] == parents[..i] + [parents[i]];
      var mode := FromCheckpoint(parents[i]);
      if !IsStartMode(mode) || mode == TrimHorizon {
        assert parents[i] in parents && parents[i] != Some(SENTINEL_LATEST);
        return None;
      }
      match inherited
      case None => inherited := Some(mode);
      case Some(cur) =>
        if cur != mode {
          return None;
        }
    }
    assert parents[..|parents|] == parents;
    seed := if inherited.Some? then AsCheckpoint(inherited.value) else None;
  }
}
