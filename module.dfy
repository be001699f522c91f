/**
 * One entry of the Go module index (a module path at a version, with its publish
 * time) and what the downloader derives from it: the identity string used as the
 * dedup key, the proxy URL of its artifacts, the pseudo-version test that the skip
 * policy uses, and the latest publish time of a batch (the checkpoint value).
 *
 * Times are nanoseconds since the Unix epoch.
 */
module Modules {
  import opened Text

  /** time.Unix(0, 0). */
  const Epoch: int := 0

  /** Go's zero time.Time{} (0001-01-01T00:00:00Z), in nanoseconds since the epoch. */
  const ZeroTime: int := -62135596800 * 1000000000

  /** The default of the GO_PROXY setting. */
  const GoProxy: string := "https://proxy.golang.org"

  datatype Module = Module(timestamp: int, path: string, version: string)

  // ---------------------------------------------------------------------------
  // Identity: "path@version"

  /** Module.String: the dedup key. */
  function Identity(m: Module): (k: string)
    ensures |k| == |m.path| + 1 + |m.version|
    ensures k[..|m.path|] == m.path && k[|m.path|] == '@' && k[|m.path| + 1..] == m.version
  {
    m.path + "@" + m.version
  }

  /** The index of the first `c` in `s`, or |s| when there is none. */
  function FirstIndex(s: string, c: char): (i: nat)
    ensures i <= |s|
    ensures c !in s[..i]
    ensures i < |s| ==> s[i] == c
    decreases |s|
  {
    if |s| == 0 then 0
    else if s[0] == c then 0
    else 1 + FirstIndex(s[1..], c)
  }

  /** Splits a key at its first '@' into path and version. */
  function ParseIdentity(key: string): (r: (string, string)) {
    var i := FirstIndex(key, '@');
    if i < |key| then (key[..i], key[i + 1..]) else (key, "")
  }

  /** Cutting x + [c] + y at its first `c` gives back x and y when x holds no `c`. */
  lemma {:induction false} FirstIndexAfter(x: string, c: char, y: string)
    requires c !in x
    ensures FirstIndex(x + [c] + y, c) == |x|
    decreases |x|
  {
    if |x| > 0 {
      assert (x + [c] + y)[1..] == x[1..] + [c] + y;
      FirstIndexAfter(x[1..], c, y);
    }
  }

  /** The key can be read back into the path and version it was made from. */
  lemma IdentityRoundTrip(m: Module)
    requires '@' !in m.path
    ensures ParseIdentity(Identity(m)) == (m.path, m.version)
  {
    var key := Identity(m);
    assert key == m.path + ['@'] + m.version;
    FirstIndexAfter(m.path, '@', m.version);
    assert key[..|m.path|] == m.path;
    assert key[|m.path| + 1..] == m.version;
  }

  /**
   * Two modules share a dedup key exactly when they share path and version (module
   * paths never contain '@'); the timestamp plays no part.
   */
  lemma IdentityInjective(a: Module, b: Module)
    requires '@' !in a.path && '@' !in b.path
    ensures Identity(a) == Identity(b) <==> (a.path == b.path && a.version == b.version)
  {
    if Identity(a) == Identity(b) {
      IdentityRoundTrip(a);
      IdentityRoundTrip(b);
    }
  }

  // ---------------------------------------------------------------------------
  // Proxy URLs

  /** Module.BaseURL: GO_PROXY/<path>/@v/<version>. */
  function BaseURL(m: Module): (u: string)
    ensures GoProxy + "/" + m.path + "/@v/" <= u
    ensures |m.version| <= |u| && u[|u| - |m.version|..] == m.version
  {
    GoProxy + "/" + m.path + "/@v/" + m.version
  }

  /** A string cut at a separator its head does not hold determines head and tail. */
  lemma CutUnique(x1: string, y1: string, x2: string, y2: string, c: char)
    requires c !in x1 && c !in x2 && x1 + [c] + y1 == x2 + [c] + y2
    ensures x1 == x2 && y1 == y2
  {
    var e := x1 + [c] + y1;
    FirstIndexAfter(x1, c, y1);
    FirstIndexAfter(x2, c, y2);
    assert x1 == e[..|x1|] && x2 == e[..|x2|];
    assert y1 == e[|x1| + 1..] && y2 == e[|x2| + 1..];
  }

  /** The part of BaseURL after the proxy's address, split at the '@'. */
  lemma BaseURLShape(m: Module)
    ensures BaseURL(m) == (GoProxy + "/") + ((m.path + "/") + ['@'] + ("v/" + m.version))
  {
  }

  /** Distinct modules (by path and version) have distinct artifact URLs. */
  lemma BaseURLInjective(a: Module, b: Module)
    requires '@' !in a.path && '@' !in b.path
    ensures BaseURL(a) == BaseURL(b) <==> (a.path == b.path && a.version == b.version)
  {
    if BaseURL(a) == BaseURL(b) {
      var p := GoProxy + "/";
      var xa, ya := a.path + "/", "v/" + a.version;
      var xb, yb := b.path + "/", "v/" + b.version;
      BaseURLShape(a);
      BaseURLShape(b);
      assert xa + ['@'] + ya == (p + (xa + ['@'] + ya))[|p|..];
      assert xb + ['@'] + yb == (p + (xb + ['@'] + yb))[|p|..];
      CutUnique(xa, ya, xb, yb, '@');
      assert a.path == xa[..|xa| - 1] && b.path == xb[..|xb| - 1];
      assert a.version == ya[2..] && b.version == yb[2..];
    }
  }

  // ---------------------------------------------------------------------------
  // Pseudo-versions: the unanchored pattern
  //   v\d+\.\d+\.\d+-(\d+\.)?(\d+\.)?\d{8}\d{6}-[a-f0-9]{12}
  // where \d is an ASCII digit.

  predicate IsLowerHex(c: char) {
    IsDigit(c) || 'a' <= c <= 'f'
  }

  predicate CharAt(s: string, i: int, c: char) {
    0 <= i < |s| && s[i] == c
  }

  /** `\d+` spans s[i..j]. */
  predicate DigitRun(s: string, i: int, j: int) {
    0 <= i < j <= |s| && forall k :: i <= k < j ==> IsDigit(s[k])
  }

  /** `[a-f0-9]` repeated spans s[i..j]. */
  predicate HexRun(s: string, i: int, j: int) {
    0 <= i <= j <= |s| && forall k :: i <= k < j ==> IsLowerHex(s[k])
  }

  /** `(\d+\.)?` spans s[i..j]. */
  predicate OptionalGroup(s: string, i: int, j: int) {
    j == i || (DigitRun(s, i, j - 1) && CharAt(s, j - 1, '.'))
  }

  /** `v\d+\.\d+\.\d+-` matches at `i`, its three numbers ending at a, b and c. */
  predicate CoreShapeAt(s: string, i: int, a: int, b: int, c: int) {
    && CharAt(s, i, 'v')
    && DigitRun(s, i + 1, a) && CharAt(s, a, '.')
    && DigitRun(s, a + 1, b) && CharAt(s, b, '.')
    && DigitRun(s, b + 1, c) && CharAt(s, c, '-')
  }

  /** `\d{8}\d{6}-[a-f0-9]{12}` matches at `f`. */
  predicate StampShapeAt(s: string, f: int) {
    DigitRun(s, f, f + 14) && CharAt(s, f + 14, '-') && HexRun(s, f + 15, f + 27)
  }

  /**
   * The pattern matches at `i`, with its major, minor and patch numbers ending at
   * a, b and c, its optional groups ending at d and f, and the 14-digit timestamp
   * starting at f.
   */
  predicate ShapeAt(s: string, i: int, a: int, b: int, c: int, d: int, f: int) {
    CoreShapeAt(s, i, a, b, c) && OptionalGroup(s, c + 1, d) && OptionalGroup(s, d, f) && StampShapeAt(s, f)
  }

  /** Regular-expression semantics: some choice of the pieces matches at `i`. */
  ghost predicate MatchesAt(s: string, i: int) {
    exists a, b, c, d, f :: ShapeAt(s, i, a, b, c, d, f)
  }

  /** The end of the run of digits that starts at `i`. */
  function DigitsEnd(s: string, i: int): (j: int)
    requires 0 <= i <= |s|
    ensures i <= j <= |s|
    ensures forall k :: i <= k < j ==> IsDigit(s[k])
    ensures j == |s| || !IsDigit(s[j])
    decreases |s| - i
  {
    if i < |s| && IsDigit(s[i]) then DigitsEnd(s, i + 1) else i
  }

  /** The position after `\d+` followed by `sep` at `i`, if they are there. */
  function NumberThen(s: string, i: int, sep: char): (r: Wrappers.Option<int>)
    requires 0 <= i <= |s|
    ensures r.Some? ==> i + 2 <= r.value <= |s|
  {
    var j := DigitsEnd(s, i);
    if i < j < |s| && s[j] == sep then Wrappers.Some(j + 1) else Wrappers.None
  }

  /** Consumes `(\d+\.)?` greedily. */
  function SkipGroup(s: string, p: int): (q: int)
    requires 0 <= p <= |s|
    ensures p <= q <= |s|
  {
    match NumberThen(s, p, '.')
    case Some(q) => q
    case None => p
  }

  /** The position after `v\d+\.\d+\.\d+-` at `i`, if that is there. */
  function CoreEnd(s: string, i: int): (r: Wrappers.Option<int>)
    requires 0 <= i < |s|
    ensures r.Some? ==> i + 7 <= r.value <= |s|
  {
    if s[i] != 'v' then Wrappers.None
    else
      match NumberThen(s, i + 1, '.')
      case None => Wrappers.None
      case Some(a1) =>
        match NumberThen(s, a1, '.')
        case None => Wrappers.None
        case Some(b1) => NumberThen(s, b1, '-')
  }

  /** The timestamp and hash part of the pattern, checked at `f`. */
  predicate StampAt(s: string, f: int)
    requires 0 <= f <= |s|
  {
    f + 27 <= |s| && DigitsEnd(s, f) >= f + 14 && s[f + 14] == '-'
    && forall k | f + 15 <= k < f + 27 :: IsLowerHex(s[k])
  }

  /** A deterministic matcher for the pattern at position `i`. */
  function MatchAt(s: string, i: int): bool
    requires 0 <= i < |s|
  {
    match CoreEnd(s, i)
    case None => false
    case Some(c1) => StampAt(s, SkipGroup(s, SkipGroup(s, c1)))
  }

  /** A maximal digit run that stops at a non-digit is the one DigitsEnd finds. */
  lemma {:induction false} DigitsEndAt(s: string, i: int, j: int)
    requires 0 <= i <= j <= |s|
    requires forall k :: i <= k < j ==> IsDigit(s[k])
    requires j == |s| || !IsDigit(s[j])
    ensures DigitsEnd(s, i) == j
    decreases j - i
  {
    if i < j {
      DigitsEndAt(s, i + 1, j);
    }
  }

  lemma NumberThenAt(s: string, i: int, j: int, sep: char)
    requires DigitRun(s, i, j) && CharAt(s, j, sep) && !IsDigit(sep)
    ensures NumberThen(s, i, sep) == Wrappers.Some(j + 1)
  {
    DigitsEndAt(s, i, j);
  }

  /** In front of the 14-digit timestamp and its '-', no optional group is taken. */
  lemma SkipGroupAtStamp(s: string, f: int)
    requires DigitRun(s, f, f + 14) && CharAt(s, f + 14, '-')
    ensures SkipGroup(s, f) == f
  {
    DigitsEndAt(s, f, f + 14);
  }

  /** A group that is present is the one SkipGroup consumes. */
  lemma SkipGroupTaken(s: string, p: int, q: int)
    requires q > p && OptionalGroup(s, p, q)
    ensures SkipGroup(s, p) == q
  {
    NumberThenAt(s, p, q - 1, '.');
  }

  lemma CoreEndSound(s: string, i: int) returns (a: int, b: int)
    requires 0 <= i < |s| && CoreEnd(s, i).Some?
    ensures CoreShapeAt(s, i, a, b, CoreEnd(s, i).value - 1)
  {
    var a1 := NumberThen(s, i + 1, '.').value;
    var b1 := NumberThen(s, a1, '.').value;
    a, b := a1 - 1, b1 - 1;
  }

  lemma CoreEndComplete(s: string, i: int, a: int, b: int, c: int)
    requires CoreShapeAt(s, i, a, b, c)
    ensures CoreEnd(s, i) == Wrappers.Some(c + 1)
  {
    NumberThenAt(s, i + 1, a, '.');
    NumberThenAt(s, a + 1, b, '.');
    NumberThenAt(s, b + 1, c, '-');
  }

  lemma StampAtIff(s: string, f: int)
    requires 0 <= f <= |s|
    ensures StampAt(s, f) <==> StampShapeAt(s, f)
  {
    if StampShapeAt(s, f) {
      DigitsEndAt(s, f, f + 14);
    }
  }

  /** Every match the deterministic matcher reports is a match of the pattern. */
  lemma MatchAtSound(s: string, i: int)
    requires 0 <= i < |s| && MatchAt(s, i)
    ensures MatchesAt(s, i)
  {
    var c1 := CoreEnd(s, i).value;
    var a, b := CoreEndSound(s, i);
    var d := SkipGroup(s, c1);
    var f := SkipGroup(s, d);
    StampAtIff(s, f);
    assert ShapeAt(s, i, a, b, c1 - 1, d, f);
  }

  /** Greedy group-skipping lands on the timestamp whichever groups the pattern used. */
  lemma SkipGroupsToStamp(s: string, c1: int, d: int, f: int)
    requires 0 <= c1 <= |s|
    requires OptionalGroup(s, c1, d) && OptionalGroup(s, d, f) && c1 <= d <= f
    requires DigitRun(s, f, f + 14) && CharAt(s, f + 14, '-')
    ensures SkipGroup(s, SkipGroup(s, c1)) == f
  {
    SkipGroupAtStamp(s, f);
    if d > c1 {
      SkipGroupTaken(s, c1, d);
      if f > d {
        SkipGroupTaken(s, d, f);
      }
    } else if f > d {
      SkipGroupTaken(s, c1, f);
    }
  }

  /** Every match of the pattern is found by the deterministic matcher. */
  lemma MatchAtComplete(s: string, i: int)
    requires 0 <= i < |s| && MatchesAt(s, i)
    ensures MatchAt(s, i)
  {
    var a, b, c, d, f :| ShapeAt(s, i, a, b, c, d, f);
    ShapeMatched(s, i, a, b, c, d, f);
  }

  /** The matcher accepts at `i` once the pattern's pieces are laid out there. */
  lemma ShapeMatched(s: string, i: int, a: int, b: int, c: int, d: int, f: int)
    requires 0 <= i < |s| && ShapeAt(s, i, a, b, c, d, f)
    ensures MatchAt(s, i)
  {
    CoreEndComplete(s, i, a, b, c);
    SkipGroupsToStamp(s, c + 1, d, f);
    StampAtIff(s, f);
  }

  /** Module.IsPseudoVersion: the deterministic matcher accepts at some position. */
  function IsPseudoVersion(version: string): (r: bool)
    ensures r ==> 34 <= |version|
  {
    exists i | 0 <= i < |version| :: MatchAt(version, i)
  }

  /** IsPseudoVersion holds exactly when the pattern matches somewhere in the version string. */
  lemma IsPseudoVersionSpec(version: string)
    ensures IsPseudoVersion(version) <==> exists i :: 0 <= i < |version| && MatchesAt(version, i)
  {
    forall i | 0 <= i < |version|
      ensures MatchAt(version, i) <==> MatchesAt(version, i)
    {
      if MatchAt(version, i) { MatchAtSound(version, i); }
      if MatchesAt(version, i) { MatchAtComplete(version, i); }
    }
  }

  /** The pseudo-version of an untagged commit. */
  const UntaggedCommit: string := "v0.0.0-20191109021931-daa7c04131f5"

  lemma UntaggedCommitCore()
    ensures CoreShapeAt(UntaggedCommit, 0, 2, 4, 6)
  {
    var s := UntaggedCommit;
    assert s[0] == 'v' && s[1] == '0' && s[2] == '.' && s[3] == '0' && s[4] == '.';
    assert s[5] == '0' && s[6] == '-';
  }

  lemma UntaggedCommitStamp()
    ensures StampShapeAt(UntaggedCommit, 7)
  {
    var s := UntaggedCommit;
    assert DigitRun(s, 7, 21) by {
      forall k | 7 <= k < 21 ensures IsDigit(s[k]) {}
    }
    assert s[21] == '-';
    assert HexRun(s, 22, 34) by {
      forall k | 22 <= k < 34 ensures IsLowerHex(s[k]) {}
    }
  }

  /** A pseudo-version of an untagged commit is recognised. */
  lemma PseudoVersionExample()
    ensures IsPseudoVersion(UntaggedCommit)
  {
    UntaggedCommitCore();
    UntaggedCommitStamp();
    assert ShapeAt(UntaggedCommit, 0, 2, 4, 6, 7, 7);
    ShapeMatched(UntaggedCommit, 0, 2, 4, 6, 7, 7);
  }

  // ---------------------------------------------------------------------------
  // The latest publish time of a batch

  /** max(epoch, the batch's timestamps), folded from the left as the loop does. */
  function MaxTimestamp(ms: seq<Module>): (r: int)
    ensures r >= Epoch
    ensures forall k :: 0 <= k < |ms| ==> ms[k].timestamp <= r
    ensures r == Epoch || exists k :: 0 <= k < |ms| && ms[k].timestamp == r
    ensures |ms| == 0 ==> r == Epoch
  {
    if |ms| == 0 then Epoch
    else
      var prev := MaxTimestamp(ms[..|ms| - 1]);
      var last := ms[|ms| - 1].timestamp;
      if last >= prev then last else prev
  }

  /** The latest timestamp does not depend on the order of the batch. */
  lemma MaxTimestampPermutation(ms: seq<Module>, ns: seq<Module>)
    requires multiset(ms) == multiset(ns)
    ensures MaxTimestamp(ms) == MaxTimestamp(ns)
  {
    var x, y := MaxTimestamp(ms), MaxTimestamp(ns);
    if x != Epoch {
      var k :| 0 <= k < |ms| && ms[k].timestamp == x;
      assert ms[k] in multiset(ns);
      assert x <= y;
    }
    if y != Epoch {
      var k :| 0 <= k < |ns| && ns[k].timestamp == y;
      assert ns[k] in multiset(ms);
      assert y <= x;
    }
  }

  /** Modules.GetMaxTs in dl/module.go: the loop, with its early return on an empty batch. */
  method GetMaxTs(ms: seq<Module>) returns (maxTs: int)
    ensures maxTs == MaxTimestamp(ms)
  {
    if |ms| == 0 {
      return Epoch;
    }
    maxTs := Epoch;
    for i := 0 to |ms|
      invariant maxTs == MaxTimestamp(ms[..i])
    {
      assert ms[..i + 1][..i] == ms[..i];
      if ms[i].timestamp >= maxTs {
        maxTs := ms[i].timestamp;
      }
    }
    assert ms[..|ms|] == ms;
  }
}
