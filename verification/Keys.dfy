/** The derived keys and fingerprints of an import, and why they cannot collide on validated input. */
module Keys {
  import opened Common
  import opened Rows

  const UNIT_SEPARATOR: char := '\U{1F}'

  predicate NoControls(s: string) {
    forall c :: c in s ==> ' ' <= c && c != '\U{7F}'
  }

  /** An Idempotency-Key header: 1 to 255 printable ASCII characters. */
  predicate ValidKey(key: string) {
    1 <= |key| <= 255 && forall c :: c in key ==> '!' <= c <= '~'
  }

  function Join(parts: seq<string>): string
    requires parts != []
  {
    if |parts| == 1 then parts[0] else parts[0] + [UNIT_SEPARATOR] + Join(parts[1..])
  }

  predicate SeparatorFree(parts: seq<string>) {
    forall i :: 0 <= i < |parts| ==> UNIT_SEPARATOR !in parts[i]
  }

  /** The first separator ends the first part, so a joined text has one reading. */
  lemma FirstPart(x: string, xs: string, y: string, ys: string)
    requires UNIT_SEPARATOR !in x && UNIT_SEPARATOR !in y
    requires x + [UNIT_SEPARATOR] + xs == y + [UNIT_SEPARATOR] + ys
    ensures x == y && xs == ys
  {
    var whole := x + [UNIT_SEPARATOR] + xs;
    assert whole[|x|] == UNIT_SEPARATOR;
    assert whole[|y|] == UNIT_SEPARATOR;
    assert |x| == |y| by {
      assert forall i :: 0 <= i < |y| ==> whole[i] == y[i];
      assert forall i :: 0 <= i < |x| ==> whole[i] == x[i];
    }
    assert x == whole[..|x|] && xs == whole[|x| + 1..];
    assert y == whole[..|y|] && ys == whole[|y| + 1..];
  }

  lemma {:induction false} JoinInjective(xs: seq<string>, ys: seq<string>)
    requires |xs| == |ys| > 0
    requires SeparatorFree(xs) && SeparatorFree(ys)
    requires Join(xs) == Join(ys)
    ensures xs == ys
  {
    if |xs| > 1 {
      FirstPart(xs[0], Join(xs[1..]), ys[0], Join(ys[1..]));
      JoinInjective(xs[1..], ys[1..]);
      assert xs == [xs[0]] + xs[1..] && ys == [ys[0]] + ys[1..];
    }
  }

  function Digit(d: nat): char
    requires d < 10
  {
    ['0', '1', '2', '3', '4', '5', '6', '7', '8', '9'][d]
  }

  function Decimal(n: nat): (s: string)
    ensures s != [] && UNIT_SEPARATOR !in s
  {
    if n < 10 then [Digit(n)] else Decimal(n / 10) + [Digit(n % 10)]
  }

  lemma {:induction false} DecimalInjective(n: nat, m: nat)
    requires Decimal(n) == Decimal(m)
    ensures n == m
  {
    var s := Decimal(n);
    assert n < 10 <==> |s| == 1;
    if n >= 10 {
      assert s[..|s| - 1] == Decimal(n / 10) == Decimal(m / 10);
      assert s[|s| - 1] == Digit(n % 10) == Digit(m % 10);
      DecimalInjective(n / 10, m / 10);
    }
  }

  function KindName(kind: AttachmentKind): (s: string)
    ensures UNIT_SEPARATOR !in s
  {
    match kind
    case ORIGINAL => "ORIGINAL"
    case REVISED => "REVISED"
    case K3_RAW => "K3_RAW"
  }

  /** The idempotency key of the file upload behind one attachment. */
  function ChildKey(device: string, key: string, kind: AttachmentKind): Digest<string> {
    Sha256(Join([device, key, KindName(kind)]))
  }

  datatype Upload = Upload(filename: string, category: string, date: string, size: nat, sha256: string,
                           contentType: string)

  predicate ValidUpload(u: Upload) {
    NoControls(u.filename) && NoControls(u.category) && NoControls(u.date) && NoControls(u.sha256)
        && NoControls(u.contentType)
  }

  function UploadParts(u: Upload): seq<string> {
    [u.filename, u.category, u.date, Decimal(u.size), u.sha256, u.contentType]
  }

  function Fingerprint(u: Upload): Digest<string> {
    Sha256(Join(UploadParts(u)))
  }

  /** Two attachments share a child key exactly when device, key and kind agree. */
  lemma ChildKeyInjective(d1: string, k1: string, kind1: AttachmentKind, d2: string, k2: string, kind2: AttachmentKind)
    requires NoControls(d1) && NoControls(d2) && ValidKey(k1) && ValidKey(k2)
    ensures ChildKey(d1, k1, kind1) == ChildKey(d2, k2, kind2) <==> d1 == d2 && k1 == k2 && kind1 == kind2
  {
    if ChildKey(d1, k1, kind1) == ChildKey(d2, k2, kind2) {
      var xs, ys := [d1, k1, KindName(kind1)], [d2, k2, KindName(kind2)];
      JoinInjective(xs, ys);
      assert xs[0] == ys[0] && xs[1] == ys[1] && xs[2] == ys[2];
      assert KindName(kind1)[0] == KindName(kind2)[0];
    }
  }

  /** Two validated uploads share a fingerprint exactly when they declare the same thing. */
  lemma FingerprintInjective(u: Upload, v: Upload)
    requires ValidUpload(u) && ValidUpload(v)
    ensures Fingerprint(u) == Fingerprint(v) <==> u == v
  {
    if Fingerprint(u) == Fingerprint(v) {
      var xs, ys := UploadParts(u), UploadParts(v);
      JoinInjective(xs, ys);
      assert xs[0] == ys[0] && xs[1] == ys[1] && xs[2] == ys[2] && xs[3] == ys[3] && xs[4] == ys[4] && xs[5] == ys[5];
      DecimalInjective(u.size, v.size);
    }
  }
}
