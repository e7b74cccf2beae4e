/** Object paths in the `blueprints` storage bucket. */
module Naming {
  import opened Text

  const OriginalsPrefix := "originals/"
  const ColoredPrefix := "colored/"

  /** The stored extension of an original: `png` for `image/png`, `jpg` for anything else. */
  function Extension(mime: string): (ext: string)
    ensures ext == "png" <==> mime == "image/png"
    ensures ext == "png" || ext == "jpg"
  {
    if mime == "image/png" then "png" else "jpg"
  }

  /** `originals/${timestamp}.${ext}`: under `originals/`, ending in `.` and the
      extension, with the timestamp readable back from the digits in between. */
  function OriginalPath(timestamp: nat, ext: string): (path: string)
    ensures |path| > |OriginalsPrefix| + |ext| + 1
    ensures path[..|OriginalsPrefix|] == OriginalsPrefix
    ensures path[|path| - |ext| - 1..] == "." + ext
    ensures AllDigits(path[|OriginalsPrefix|..|path| - |ext| - 1])
    ensures ParseDecimal(path[|OriginalsPrefix|..|path| - |ext| - 1]) == timestamp
  {
    var digits := Decimal(timestamp);
    var path := OriginalsPrefix + digits + "." + ext;
    assert path[|OriginalsPrefix|..|path| - |ext| - 1] == digits;
    ParseDecimalOfDecimal(timestamp);
    path
  }

  /** `colored/${timestamp}.png`: under `colored/`, ending in `.png`, with the
      timestamp readable back from the digits in between. */
  function ColoredPath(timestamp: nat): (path: string)
    ensures |path| > |ColoredPrefix| + 4
    ensures path[..|ColoredPrefix|] == ColoredPrefix
    ensures path[|path| - 4..] == ".png"
    ensures AllDigits(path[|ColoredPrefix|..|path| - 4])
    ensures ParseDecimal(path[|ColoredPrefix|..|path| - 4]) == timestamp
  {
    var digits := Decimal(timestamp);
    var path := ColoredPrefix + digits + ".png";
    assert path[|ColoredPrefix|..|path| - 4] == digits;
    ParseDecimalOfDecimal(timestamp);
    path
  }

  /** In `prefix + digits + "." + rest`, the first `.` after the prefix closes the digits. */
  lemma FirstDotAfterDigits(prefix: string, d: string, r: string)
    requires AllDigits(d)
    ensures (prefix + d + "." + r)[|prefix| + |d|] == '.'
    ensures forall i :: |prefix| <= i < |prefix| + |d| ==> (prefix + d + "." + r)[i] != '.'
  {
    var s := prefix + d + "." + r;
    forall i | |prefix| <= i < |prefix| + |d| ensures s[i] != '.' {
      assert s[i] == d[i - |prefix|];
    }
  }

  /** `prefix + digits + "." + rest` determines the digits and the rest. */
  lemma StampedPathInjective(prefix: string, d1: string, r1: string, d2: string, r2: string)
    requires AllDigits(d1) && AllDigits(d2)
    requires prefix + d1 + "." + r1 == prefix + d2 + "." + r2
    ensures d1 == d2 && r1 == r2
  {
    var s := prefix + d1 + "." + r1;
    var t := prefix + d2 + "." + r2;
    FirstDotAfterDigits(prefix, d1, r1);
    FirstDotAfterDigits(prefix, d2, r2);
    assert |d1| == |d2|;
    assert d1 == s[|prefix|..|prefix| + |d1|];
    assert d2 == t[|prefix|..|prefix| + |d2|];
    assert r1 == s[|prefix| + |d1| + 1..];
    assert r2 == t[|prefix| + |d2| + 1..];
  }

  /** Original paths name their timestamp and extension: distinct timestamps never collide. */
  lemma OriginalPathInjective(t1: nat, e1: string, t2: nat, e2: string)
    ensures OriginalPath(t1, e1) == OriginalPath(t2, e2) <==> t1 == t2 && e1 == e2
  {
    if OriginalPath(t1, e1) == OriginalPath(t2, e2) {
      StampedPathInjective(OriginalsPrefix, Decimal(t1), e1, Decimal(t2), e2);
      DecimalInjective(t1, t2);
    }
  }

  /** Coloured paths differ exactly when their timestamps differ. */
  lemma ColoredPathInjective(t1: nat, t2: nat)
    ensures ColoredPath(t1) == ColoredPath(t2) <==> t1 == t2
  {
    if ColoredPath(t1) == ColoredPath(t2) {
      assert ColoredPath(t1) == ColoredPrefix + Decimal(t1) + "." + "png";
      assert ColoredPath(t2) == ColoredPrefix + Decimal(t2) + "." + "png";
      StampedPathInjective(ColoredPrefix, Decimal(t1), "png", Decimal(t2), "png");
      DecimalInjective(t1, t2);
    }
  }

  /** The two namespaces are disjoint: no original ever lands on a coloured path. */
  lemma NamespacesDisjoint(t1: nat, ext: string, t2: nat)
    ensures OriginalPath(t1, ext) != ColoredPath(t2)
  {
    assert OriginalPath(t1, ext)[0] == 'o';
    assert ColoredPath(t2)[0] == 'c';
  }
}
