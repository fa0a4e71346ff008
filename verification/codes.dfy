/** `CodeService`: a cache of one-time codes, each standing for a user's uuid
    until it is read once. A code is 16 random bytes in hexadecimal. Cache
    failures are parameters: `fails` says that the cache call rejected. */
module Codes {
  import opened Wrappers
  import opened Errors
  import Hex

  datatype Cache = Cache(entries: map<string, string>)

  /** A fresh code for `uuid`, stored in the cache. */
  function GenCode(c: Cache, uuid: string, entropy: seq<Hex.byte>, fails: bool)
    : (r: Result<(Cache, string), Error>)
    requires |entropy| == 16
    ensures fails ==> r == Err(InternalError("Failed to save code"))
    ensures !fails ==> r.Ok?
    ensures r.Ok? ==>
              var (t, code) := r.value;
              && |code| == 32 && Hex.IsHexString(code)
              && code in t.entries && t.entries[code] == uuid
              && t.entries.Keys == c.entries.Keys + {code}
              && (forall k :: k in c.entries && k != code ==> t.entries[k] == c.entries[k])
  {
    var code := Hex.Encode(entropy);
    if fails then Err(InternalError("Failed to save code"))
    else Ok((Cache(c.entries[code := uuid]), code))
  }

  /** The uuid stored under `code`, if any, and the cache without it. */
  function GetUuid(c: Cache, code: string, fails: bool): (r: Result<(Cache, Option<string>), Error>)
    ensures fails ==> r == Err(InternalError("Failed to get uuid"))
    ensures !fails ==> r.Ok?
    ensures r.Ok? ==>
              var (t, found) := r.value;
              && (found.Some? <==> code in c.entries)
              && (found.Some? ==> found.value == c.entries[code])
              && code !in t.entries
              && t.entries.Keys == c.entries.Keys - {code}
              && (forall k :: k in t.entries ==> t.entries[k] == c.entries[k])
  {
    if fails then Err(InternalError("Failed to get uuid"))
    else if code in c.entries then Ok((Cache(c.entries - {code}), Some(c.entries[code])))
    else Ok((c, None))
  }

  /** A code generated for `uuid` gives `uuid` back on the first read and
      nothing on the second. */
  lemma CodeIsSingleUse(c: Cache, uuid: string, entropy: seq<Hex.byte>)
    requires |entropy| == 16
    ensures var g := GenCode(c, uuid, entropy, false);
            && g.Ok?
            && var first := GetUuid(g.value.0, g.value.1, false);
            && first.Ok? && first.value.1 == Some(uuid)
            && GetUuid(first.value.0, g.value.1, false).value.1 == None
  {
  }

  /** Different random bytes give different codes, so a new code never
      overwrites one drawn from other bytes. */
  lemma DistinctEntropyDistinctCodes(c: Cache, uuid: string, e1: seq<Hex.byte>, e2: seq<Hex.byte>)
    requires |e1| == 16 && |e2| == 16 && e1 != e2
    ensures GenCode(c, uuid, e1, false).value.1 != GenCode(c, uuid, e2, false).value.1
  {
    if Hex.Encode(e1) == Hex.Encode(e2) {
      Hex.EncodeInjective(e1, e2);
    }
  }
}
