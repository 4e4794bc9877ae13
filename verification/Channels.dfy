/** Channel names as users type them, and their normal form. Characters are ASCII. */
module Channels {
  const ALLOWED: set<string> := {"push", "email", "web"}

  predicate IsSpace(c: char) {
    '\t' <= c <= '\r' || '\U{1c}' <= c <= ' '
  }

  function StripLeft(s: string): string {
    if s != "" && IsSpace(s[0]) then StripLeft(s[1..]) else s
  }

  function StripRight(s: string): string {
    if s != "" && IsSpace(s[|s| - 1]) then StripRight(s[..|s| - 1]) else s
  }

  function Strip(s: string): string {
    StripRight(StripLeft(s))
  }

  function LowerChar(c: char): char {
    if 'A' <= c <= 'Z' then c - 'A' + 'a' else c
  }

  function Lower(s: string): string {
    seq(|s|, i requires 0 <= i < |s| => LowerChar(s[i]))
  }

  function Fold(s: string): string {
    Lower(Strip(s))
  }

  /** The distinct non-empty folded names, in order of first occurrence. */
  function Normalize(channels: seq<string>): seq<string> {
    if channels == [] then
      []
    else
      var init, folded := Normalize(channels[..|channels| - 1]), Fold(channels[|channels| - 1]);
      if folded == "" || folded in init then init else init + [folded]
  }

  /** The two services share this loop; one of them then refuses an empty result. */
  method NormalizeChannels(channels: seq<string>) returns (normalized: seq<string>)
    ensures normalized == Normalize(channels)
  {
    var seen: set<string> := {};
    normalized := [];
    for i := 0 to |channels|
      invariant normalized == Normalize(channels[..i])
      invariant forall c :: c in seen <==> c in normalized
    {
      assert channels[..i + 1][..i] == channels[..i];
      var folded := Fold(channels[i]);
      if folded != "" && folded !in seen {
        seen := seen + {folded};
        normalized := normalized + [folded];
      }
    }
    assert channels[..|channels|] == channels;
  }

  /** Normal form: distinct, not empty, and unchanged by folding. */
  ghost predicate IsNormal(channels: seq<string>) {
    && (forall i, j :: 0 <= i < j < |channels| ==> channels[i] != channels[j])
    && (forall c :: c in channels ==> c != "" && Fold(c) == c)
  }

  lemma StripEnds(s: string)
    ensures Strip(s) != "" ==> !IsSpace(Strip(s)[0]) && !IsSpace(Strip(s)[|Strip(s)| - 1])
  {
    StripLeftEnds(s);
    StripRightEnds(StripLeft(s));
  }

  lemma StripLeftEnds(s: string)
    ensures StripLeft(s) != "" ==> !IsSpace(StripLeft(s)[0])
  {
  }

  lemma StripRightEnds(s: string)
    ensures StripRight(s) <= s
    ensures StripRight(s) != "" ==> !IsSpace(StripRight(s)[|StripRight(s)| - 1])
  {
  }

  lemma FoldIsIdempotent(s: string)
    ensures Fold(Fold(s)) == Fold(s)
  {
    var t := Fold(s);
    StripEnds(s);
    assert t != "" ==> !IsSpace(t[0]) && !IsSpace(t[|t| - 1]);
    assert Strip(t) == t;
    assert Lower(t) == t;
  }

  /** Exactly the folded names occur, and the result is in normal form. */
  lemma {:induction false} NormalizeKeepsNames(channels: seq<string>)
    ensures IsNormal(Normalize(channels))
    ensures forall c :: c in Normalize(channels) <==>
                          c != "" && exists i :: 0 <= i < |channels| && Fold(channels[i]) == c
  {
    if channels != [] {
      var n := |channels| - 1;
      var init, folded := channels[..n], Fold(channels[n]);
      NormalizeKeepsNames(init);
      FoldIsIdempotent(channels[n]);
      forall c
        ensures c in Normalize(channels) <==> c != "" && exists i :: 0 <= i < |channels| && Fold(channels[i]) == c
      {
        if c in Normalize(init) {
          var i :| 0 <= i < |init| && Fold(init[i]) == c;
          assert Fold(channels[i]) == c;
        } else if i :| 0 <= i < |channels| && Fold(channels[i]) == c {
          assert i < n ==> Fold(init[i]) == c;
        }
      }
    }
  }

  lemma NormalSplits(channels: seq<string>)
    requires IsNormal(channels) && channels != []
    ensures var n := |channels| - 1;
            && IsNormal(channels[..n])
            && channels[n] !in channels[..n] && channels[n] != "" && Fold(channels[n]) == channels[n]
  {
    var n := |channels| - 1;
    assert channels[n] in channels;
    forall i | 0 <= i < n
      ensures channels[..n][i] == channels[i] && channels[i] in channels && channels[i] != channels[n]
    {
    }
  }

  /** Normalising what is in normal form changes nothing. */
  lemma {:induction false} NormalIsFixed(channels: seq<string>)
    requires IsNormal(channels)
    ensures Normalize(channels) == channels
  {
    if channels != [] {
      var n := |channels| - 1;
      NormalSplits(channels);
      NormalIsFixed(channels[..n]);
      assert channels == channels[..n] + [channels[n]];
    }
  }
}
