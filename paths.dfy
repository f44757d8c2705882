/**
 * File names of saved checkpoints (model/__init_2-4.py:94, 104, 112, 117):
 * `os.path.join(path, 'model', data_train + tag + str(last_scale) + '.pt')`.
 */
module CheckpointPaths {

  /** Python's `posixpath.join(a, b)`. */
  function PathJoin(a: string, b: string): (r: string)
    ensures |r| >= |b|
  {
    if |b| > 0 && b[0] == '/' then b
    else if |a| == 0 || a[|a| - 1] == '/' then a + b
    else a + "/" + b
  }

  function DigitChar(d: nat): char
    requires d < 10
  {
    "0123456789"[d]
  }

  /** Decimal digits of a natural number, most significant first. */
  function Digits(n: nat): (s: string)
    ensures |s| >= 1 && s[0] != '-'
  {
    if n < 10 then [DigitChar(n)] else Digits(n / 10) + [DigitChar(n % 10)]
  }

  /** Python's `str(n)` on an int. */
  function Decimal(n: int): (s: string)
    ensures |s| >= 1
    ensures s[0] == '-' <==> n < 0
  {
    if n < 0 then "-" + Digits(-n) else Digits(n)
  }

  /** The value of a string of decimal digits (the inverse of Digits). */
  function DigitsValue(s: string): nat
  {
    if |s| == 0 then 0
    else
      var c := s[|s| - 1];
      var d := if '0' <= c <= '9' then (c as int - '0' as int) else 0;
      DigitsValue(s[..|s| - 1]) * 10 + d
  }

  /** Appending one character and dropping it again. */
  lemma AppendLast(x: string, c: char)
    ensures (x + [c])[..|x|] == x && (x + [c])[|x|] == c && |x + [c]| == |x| + 1
  {
  }

  /** The value of a string of digits, seen from its last digit. */
  lemma DigitsValueLast(x: string, d: nat)
    requires d < 10
    ensures DigitsValue(x + [DigitChar(d)]) == DigitsValue(x) * 10 + d
  {
    AppendLast(x, DigitChar(d));
  }

  lemma {:induction false} DigitsRoundTrip(n: nat)
    ensures DigitsValue(Digits(n)) == n
  {
    if n >= 10 {
      DigitsRoundTrip(n / 10);
      DigitsValueLast(Digits(n / 10), n % 10);
    } else {
      DigitsValueLast([], n);
      assert [] + [DigitChar(n)] == Digits(n);
    }
  }

  lemma DigitsInjective(m: nat, n: nat)
    requires Digits(m) == Digits(n)
    ensures m == n
  {
    var s := Digits(m);
    DigitsRoundTrip(m);
    DigitsRoundTrip(n);
    assert DigitsValue(s) == m;
    assert DigitsValue(s) == n;
  }

  /** Different scales are written as different strings. */
  lemma DecimalInjective(a: int, b: int)
    requires Decimal(a) == Decimal(b)
    ensures a == b
  {
    var x, y := Decimal(a), Decimal(b);
    if a < 0 {
      assert b < 0;
      assert Digits(-a) == x[1..] == y[1..] == Digits(-b);
      DigitsInjective(-a, -b);
    } else {
      assert b >= 0;
      DigitsInjective(a, b);
    }
  }

  /** The four checkpoint files `save` can write. */
  datatype Kind = Latest | Best | DualLatest | DualBest

  function Tag(kind: Kind): string
  {
    match kind
    case Latest => "_latest_x"
    case Best => "_best_x"
    case DualLatest => "_dual_latest_x"
    case DualBest => "_dual_best_x"
  }

  /** The file name inside `<path>/model`. */
  function FileName(dataTrain: string, kind: Kind, lastScale: int): string
  {
    dataTrain + Tag(kind) + Decimal(lastScale) + ".pt"
  }

  /** The path `save` writes a checkpoint of the given kind to. */
  function CheckpointPath(dir: string, dataTrain: string, kind: Kind, lastScale: int): string
  {
    PathJoin(PathJoin(dir, "model"), FileName(dataTrain, kind, lastScale))
  }

  /** Joining one directory with two names that agree on being absolute: equal paths mean equal names. */
  lemma JoinCancel(dir: string, x: string, y: string)
    requires |dir| > 0 && dir[|dir| - 1] != '/'
    requires (|x| > 0 && x[0] == '/') <==> (|y| > 0 && y[0] == '/')
    requires PathJoin(dir, x) == PathJoin(dir, y)
    ensures x == y
  {
    if !(|x| > 0 && x[0] == '/') {
      var p := dir + "/";
      assert PathJoin(dir, x) == p + x && PathJoin(dir, y) == p + y;
      assert x == (p + x)[|p|..] && y == (p + y)[|p|..];
    }
  }

  /** The tags differ within their first seven characters, so a tag is recovered from what follows it. */
  lemma TagCancel(k1: Kind, k2: Kind, x: string, y: string)
    requires Tag(k1) + x == Tag(k2) + y
    ensures k1 == k2 && x == y
  {
    var t1, t2 := Tag(k1) + x, Tag(k2) + y;
    assert t1[1] == Tag(k1)[1] && t2[1] == Tag(k2)[1];
    assert t1[6] == Tag(k1)[6] && t2[6] == Tag(k2)[6];
    assert x == t1[|Tag(k1)|..];
    assert y == t2[|Tag(k2)|..];
  }

  lemma PrefixCancel(p: string, x: string, y: string)
    requires p + x == p + y
    ensures x == y
  {
    assert x == (p + x)[|p|..];
    assert y == (p + y)[|p|..];
  }

  lemma SuffixCancel(x: string, y: string, q: string)
    requires x + q == y + q
    ensures x == y
  {
    assert x == (x + q)[..|x + q| - |q|];
    assert y == (y + q)[..|y + q| - |q|];
  }

  lemma Reassociate(a: string, b: string, c: string, d: string)
    ensures a + b + c + d == a + (b + (c + d))
  {
  }

  /** A name built from a prefix, a tag, a number string and ".pt" fixes the tag and the number string. */
  lemma NameCancel(prefix: string, k1: Kind, e1: string, k2: Kind, e2: string)
    requires prefix + Tag(k1) + e1 + ".pt" == prefix + Tag(k2) + e2 + ".pt"
    ensures k1 == k2 && e1 == e2
  {
    Reassociate(prefix, Tag(k1), e1, ".pt");
    Reassociate(prefix, Tag(k2), e2, ".pt");
    PrefixCancel(prefix, Tag(k1) + (e1 + ".pt"), Tag(k2) + (e2 + ".pt"));
    TagCancel(k1, k2, e1 + ".pt", e2 + ".pt");
    SuffixCancel(e1, e2, ".pt");
  }

  /** A file name fixes both the kind and the scale it was built from. */
  lemma FileNameInjective(dataTrain: string, k1: Kind, s1: int, k2: Kind, s2: int)
    requires FileName(dataTrain, k1, s1) == FileName(dataTrain, k2, s2)
    ensures k1 == k2 && s1 == s2
  {
    NameCancel(dataTrain, k1, Decimal(s1), k2, Decimal(s2));
    DecimalInjective(s1, s2);
  }

  /**
   * Two checkpoint paths under the same directory and dataset name coincide
   * only when they are of the same kind and scale: the latest, best, dual
   * latest and dual best files never overwrite one another.
   */
  lemma CheckpointPathInjective(dir: string, dataTrain: string, k1: Kind, s1: int, k2: Kind, s2: int)
    requires CheckpointPath(dir, dataTrain, k1, s1) == CheckpointPath(dir, dataTrain, k2, s2)
    ensures k1 == k2 && s1 == s2
  {
    var base := PathJoin(dir, "model");
    assert |base| > 0 && base[|base| - 1] == 'l';
    var n1, n2 := FileName(dataTrain, k1, s1), FileName(dataTrain, k2, s2);
    assert |n1| > 0 && |n2| > 0;
    assert n1[0] == (if |dataTrain| > 0 then dataTrain[0] else '_');
    assert n2[0] == (if |dataTrain| > 0 then dataTrain[0] else '_');
    JoinCancel(base, n1, n2);
    FileNameInjective(dataTrain, k1, s1, k2, s2);
  }
}
