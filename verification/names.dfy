/**
 * The player's name as stored by `setPlayerName`: surrounding white space removed,
 * then cut to 16 characters; and the name a ranking entry shows when none was set.
 */
module Names {
  /** Longest name kept. */
  const NAME_LIMIT: nat := 16

  /** Shown in the ranking for a player who never set a name. */
  const ANONYMOUS: string := "ANONYMOUS"

  /** The white space and line terminators `String.prototype.trim` removes. */
  predicate IsSpace(c: char)
  {
    var n := c as int;
    || 0x09 <= n <= 0x0D || n == 0x20 || n == 0xA0 || n == 0x1680
    || 0x2000 <= n <= 0x200A || n == 0x2028 || n == 0x2029 || n == 0x202F
    || n == 0x205F || n == 0x3000 || n == 0xFEFF
  }

  /** Neither end of `s` is white space. */
  predicate Trimmed(s: string)
  {
    |s| > 0 ==> !IsSpace(s[0]) && !IsSpace(s[|s| - 1])
  }

  /** `s` without its leading white space. */
  function TrimStart(s: string): (r: string)
    ensures |r| <= |s| && r == s[|s| - |r|..]
    ensures forall i :: 0 <= i < |s| - |r| ==> IsSpace(s[i])
    ensures |r| > 0 ==> !IsSpace(r[0])
  {
    if |s| > 0 && IsSpace(s[0]) then TrimStart(s[1..]) else s
  }

  /** `s` without its trailing white space. */
  function TrimEnd(s: string): (r: string)
    ensures |r| <= |s| && r == s[..|r|]
    ensures forall i :: |r| <= i < |s| ==> IsSpace(s[i])
    ensures |r| > 0 ==> !IsSpace(r[|r| - 1])
  {
    if |s| > 0 && IsSpace(s[|s| - 1]) then TrimEnd(s[..|s| - 1]) else s
  }

  /** `s.trim()`: a slice of `s` with only white space cut from either side. */
  function Trim(s: string): (r: string)
    ensures Trimmed(r)
    ensures var lo := |s| - |TrimStart(s)|;
      && lo + |r| <= |s| && r == s[lo..lo + |r|]
      && (forall i :: 0 <= i < lo ==> IsSpace(s[i]))
      && (forall i :: lo + |r| <= i < |s| ==> IsSpace(s[i]))
  {
    var a := TrimStart(s);
    var r := TrimEnd(a);
    SliceOfSuffix(s, a, r);
    r
  }

  /** What trimming the end of the trimmed start says about the original string. */
  lemma SliceOfSuffix(s: string, a: string, r: string)
    requires |a| <= |s| && a == s[|s| - |a|..] && (|a| > 0 ==> !IsSpace(a[0]))
    requires |r| <= |a| && r == a[..|r|] && (|r| > 0 ==> !IsSpace(r[|r| - 1]))
    requires forall i :: |r| <= i < |a| ==> IsSpace(a[i])
    ensures Trimmed(r)
    ensures var lo := |s| - |a|;
      && lo + |r| <= |s| && r == s[lo..lo + |r|]
      && (forall i :: lo + |r| <= i < |s| ==> IsSpace(s[i]))
  {
    var lo := |s| - |a|;
    assert a == s[lo..];
    forall i | lo + |r| <= i < |s|
      ensures IsSpace(s[i])
    {
      assert s[i] == a[i - lo];
    }
    if |r| > 0 {
      assert r[0] == a[0];
    }
  }

  /** Trimming a trimmed string changes nothing. */
  lemma TrimmedIsFixed(s: string)
    requires Trimmed(s)
    ensures Trim(s) == s
  {
    assert TrimStart(s) == s;
    assert TrimEnd(s) == s;
  }

  /** Trimming twice is trimming once. */
  lemma TrimIdempotent(s: string)
    ensures Trim(Trim(s)) == Trim(s)
  {
    TrimmedIsFixed(Trim(s));
  }

  /** A string of white space only trims to the empty name. */
  lemma BlankTrimsToEmpty(s: string)
    requires forall i :: 0 <= i < |s| ==> IsSpace(s[i])
    ensures Trim(s) == ""
  {
  }

  /** The first `n` characters, or all of `s` when it is shorter: `substring(0, n)`. */
  function Take(s: string, n: nat): (r: string)
    ensures |r| == if |s| < n then |s| else n
    ensures r <= s
  {
    if |s| <= n then s else s[..n]
  }

  /** `setPlayerName`: the trimmed input cut to 16 characters. */
  function PlayerName(input: string): (name: string)
    ensures |name| == if |Trim(input)| < NAME_LIMIT then |Trim(input)| else NAME_LIMIT
    ensures name <= Trim(input)
    ensures |Trim(input)| <= NAME_LIMIT ==> name == Trim(input)
    ensures |name| > 0 ==> !IsSpace(name[0])
  {
    Take(Trim(input), NAME_LIMIT)
  }

  /** A name that was short enough once is kept as it is when set again. */
  lemma ShortNameIsStable(input: string)
    requires |Trim(input)| <= NAME_LIMIT
    ensures PlayerName(PlayerName(input)) == PlayerName(input)
  {
    TrimIdempotent(input);
  }

  /**
   * Cutting after trimming can leave white space at the end: a name whose 16th
   * character is a space is stored with that space, and setting it again changes it.
   */
  lemma CutCanLeaveTrailingSpace()
    ensures var input := "abcdefghijklmno pq";
      var name := PlayerName(input);
      |name| == NAME_LIMIT && IsSpace(name[|name| - 1]) && PlayerName(name) != name
  {
    var input := "abcdefghijklmno pq";
    TrimmedIsFixed(input);
    var name := PlayerName(input);
    assert name == "abcdefghijklmno ";
    var again := PlayerName(name);
    assert |again| < |name| by {
      assert !Trimmed(name);
      assert Trimmed(Trim(name));
    }
  }

  /** The name an entry carries: the player's name, or `ANONYMOUS` when it is empty. */
  function DisplayName(name: string): (shown: string)
    ensures |shown| > 0
    ensures name != "" ==> shown == name
    ensures name == "" ==> shown == ANONYMOUS
  {
    if name == "" then ANONYMOUS else name
  }
}
