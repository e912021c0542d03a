/**
 * The storage key of an uploaded screenshot, `{user_id}/{YYYY}/{MM}/{DD}/{hex}.{ext}`, and a
 * reader that takes such a key apart again.
 */
module StoragePaths {
  import opened Wrappers
  import UtcTime

  /** The key for a screenshot of `userId` captured at `captured`, with random suffix `hex`. */
  function StoragePath(userId: string, captured: UtcTime.Instant, hex: string, ext: string): string {
    userId + "/" + UtcTime.DatePath(captured) + "/" + hex + "." + ext
  }

  /** The pieces a storage key is made of. */
  datatype PathParts = PathParts(userId: string, year: nat, month: nat, day: nat, hex: string, ext: string)

  function FirstIndex(s: string, c: char): (r: Option<nat>)
    ensures r.Some? ==> r.value < |s| && s[r.value] == c
  {
    if s == [] then None
    else if s[0] == c then Some(0)
    else match FirstIndex(s[1..], c)
      case None => None
      case Some(i) => Some(i + 1)
  }

  function LastIndex(s: string, c: char): (r: Option<nat>)
    ensures r.Some? ==> r.value < |s| && s[r.value] == c
  {
    if s == [] then None
    else if s[|s| - 1] == c then Some(|s| - 1)
    else LastIndex(s[..|s| - 1], c)
  }

  lemma {:induction false} FirstIndexAfter(a: string, c: char, b: string)
    requires c !in a
    ensures FirstIndex(a + [c] + b, c) == Some(|a|)
  {
    if a != [] {
      assert (a + [c] + b)[1..] == a[1..] + [c] + b;
      FirstIndexAfter(a[1..], c, b);
    }
  }

  lemma {:induction false} LastIndexBefore(a: string, c: char, b: string)
    requires c !in b
    ensures LastIndex(a + [c] + b, c) == Some(|a|)
  {
    var s := a + [c] + b;
    if b != [] {
      assert s[..|s| - 1] == a + [c] + b[..|b| - 1];
      assert s[|s| - 1] == b[|b| - 1];
      LastIndexBefore(a, c, b[..|b| - 1]);
    }
  }

  predicate AllDigits(s: string) {
    forall i :: 0 <= i < |s| ==> UtcTime.IsDigit(s[i])
  }

  /** Reads a key back into its pieces; keys of any other shape give None. */
  function ParseStoragePath(p: string): Option<PathParts> {
    match FirstIndex(p, '/')
    case None => None
    case Some(i) => ParseDated(p[..i], p[i + 1..])
  }

  /** The part after the user id: "YYYY/MM/DD/" and then the file name. */
  function ParseDated(userId: string, rest: string): Option<PathParts> {
    if |rest| < 11 || rest[4] != '/' || rest[7] != '/' || rest[10] != '/'
       || !AllDigits(rest[..4]) || !AllDigits(rest[5..7]) || !AllDigits(rest[8..10])
    then None
    else
      match LastIndex(rest[11..], '.')
      case None => None
      case Some(j) =>
        var file := rest[11..];
        Some(PathParts(userId, UtcTime.Value(rest[..4]), UtcTime.Value(rest[5..7]),
                       UtcTime.Value(rest[8..10]), file[..j], file[j + 1..]))
  }

  lemma ParseSplitsAtUser(userId: string, rest: string)
    requires '/' !in userId
    ensures ParseStoragePath(userId + "/" + rest) == ParseDated(userId, rest)
  {
    var p := userId + "/" + rest;
    assert p == userId + ['/'] + rest;
    FirstIndexAfter(userId, '/', rest);
    assert p[..|userId|] == userId && p[|userId| + 1..] == rest;
  }

  lemma ParseReadsDate(userId: string, y: string, m: string, d: string, hex: string, ext: string)
    requires |y| == 4 && |m| == 2 && |d| == 2 && AllDigits(y) && AllDigits(m) && AllDigits(d)
    requires '.' !in ext
    ensures ParseDated(userId, y + "/" + m + "/" + d + "/" + hex + "." + ext)
         == Some(PathParts(userId, UtcTime.Value(y), UtcTime.Value(m), UtcTime.Value(d), hex, ext))
  {
    var file := hex + "." + ext;
    var rest := y + "/" + m + "/" + d + "/" + file;
    assert rest == y + "/" + m + "/" + d + "/" + hex + "." + ext;
    assert rest[..4] == y && rest[5..7] == m && rest[8..10] == d && rest[11..] == file;
    assert rest[4] == '/' && rest[7] == '/' && rest[10] == '/';
    assert file == hex + ['.'] + ext;
    LastIndexBefore(hex, '.', ext);
    assert file[..|hex|] == hex && file[|hex| + 1..] == ext;
  }

  /**
   * A key reads back as the user, capture date, suffix and extension it was built from,
   * provided the user id holds no "/" and the extension no ".".
   */
  lemma StoragePathRoundTrip(userId: string, captured: UtcTime.Instant, hex: string, ext: string)
    requires '/' !in userId && '.' !in ext
    ensures ParseStoragePath(StoragePath(userId, captured, hex, ext))
         == Some(PathParts(userId, captured.year, captured.month, captured.day, hex, ext))
  {
    var y := UtcTime.Digits(captured.year, 4);
    var m := UtcTime.Digits(captured.month, 2);
    var d := UtcTime.Digits(captured.day, 2);
    UtcTime.DigitsRoundTrip(captured.year, 4);
    UtcTime.DigitsRoundTrip(captured.month, 2);
    UtcTime.DigitsRoundTrip(captured.day, 2);
    var rest := y + "/" + m + "/" + d + "/" + hex + "." + ext;
    assert StoragePath(userId, captured, hex, ext) == userId + "/" + rest;
    ParseSplitsAtUser(userId, rest);
    ParseReadsDate(userId, y, m, d, hex, ext);
  }

  /**
   * Distinct uploads never share a key: equal keys mean the same user, the same capture
   * date, the same random suffix and the same extension.
   */
  lemma StoragePathInjective(u1: string, t1: UtcTime.Instant, h1: string, e1: string,
                             u2: string, t2: UtcTime.Instant, h2: string, e2: string)
    requires '/' !in u1 && '.' !in e1 && '/' !in u2 && '.' !in e2
    requires StoragePath(u1, t1, h1, e1) == StoragePath(u2, t2, h2, e2)
    ensures u1 == u2 && h1 == h2 && e1 == e2
    ensures t1.year == t2.year && t1.month == t2.month && t1.day == t2.day
  {
    StoragePathRoundTrip(u1, t1, h1, e1);
    StoragePathRoundTrip(u2, t2, h2, e2);
  }
}
