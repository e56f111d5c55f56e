/** The files a backup consists of, and the names they have in the client's and the peers' folders. */
module FileNames {
  import opened Wrappers
  import opened ByteStrings
  import opened Primitives

  /** How a transferred file is identified. */
  datatype FileInfo = Packfile(id: PackfileId) | Index(number: u32)

  // ----- Hexadecimal -----

  function HexDigit(d: nat): char
    requires d < 16
  {
    if d < 10 then '0' + (d as char) else 'a' + ((d - 10) as char)
  }

  function HexValue(c: char): Option<nat> {
    if '0' <= c <= '9' then Some((c - '0') as int)
    else if 'a' <= c <= 'f' then Some((c - 'a') as int + 10)
    else if 'A' <= c <= 'F' then Some((c - 'A') as int + 10)
    else None
  }

  function HexEncode(b: Bytes): (s: string)
    ensures |s| == 2 * |b|
  {
    if b == [] then "" else [HexDigit(b[0] / 16), HexDigit(b[0] % 16)] + HexEncode(b[1..])
  }

  function HexByte(high: char, low: char): (r: Option<byte>)
  {
    match (HexValue(high), HexValue(low))
    case (Some(h), Some(l)) => if h < 16 && l < 16 then Some(16 * h + l) else None
    case _ => None
  }

  function HexDecode(s: string): Option<Bytes> {
    if s == "" then Some([])
    else if |s| == 1 then None
    else
      match (HexByte(s[0], s[1]), HexDecode(s[2..]))
      case (Some(b), Some(rest)) => Some([b] + rest)
      case _ => None
  }

  lemma {:induction false} HexByteRoundTrip(b: byte)
    ensures HexByte(HexDigit(b / 16), HexDigit(b % 16)) == Some(b)
  {
  }

  lemma {:induction false} HexRoundTrip(b: Bytes)
    ensures HexDecode(HexEncode(b)) == Some(b)
    ensures forall c :: c in HexEncode(b) ==> '0' <= c <= '9' || 'a' <= c <= 'f'
  {
    if b != [] {
      HexByteRoundTrip(b[0]);
      HexRoundTrip(b[1..]);
      var s := HexEncode(b);
      assert s == [HexDigit(b[0] / 16), HexDigit(b[0] % 16)] + HexEncode(b[1..]);
      assert s[2..] == HexEncode(b[1..]);
      assert [b[0]] + b[1..] == b;
    }
  }

  // ----- Decimal -----

  function Digit(d: nat): char
    requires d < 10
  {
    '0' + (d as char)
  }

  function ToDecimal(n: nat): (s: string)
    ensures |s| >= 1
  {
    if n < 10 then [Digit(n)] else ToDecimal(n / 10) + [Digit(n % 10)]
  }

  function PadLeft(s: string, width: nat): (r: string)
    ensures |r| == if |s| < width then width else |s|
  {
    seq(if |s| < width then width - |s| else 0, _ => '0') + s
  }

  predicate AllDigits(s: string) {
    forall i :: 0 <= i < |s| ==> '0' <= s[i] <= '9'
  }

  function DecimalValue(s: string): nat
    requires AllDigits(s)
  {
    if s == "" then 0 else 10 * DecimalValue(s[..|s| - 1]) + (s[|s| - 1] - '0') as int
  }

  /** An unsigned 32-bit integer: digits, after an optional plus sign, without overflow. */
  function ParseU32(s: string): Option<u32> {
    var digits := if s != "" && s[0] == '+' then s[1..] else s;
    if digits == "" || !AllDigits(digits) || DecimalValue(digits) >= U32_LIMIT then None
    else Some(DecimalValue(digits))
  }

  function Pow10(k: nat): (r: nat)
    ensures r >= 1
  {
    if k == 0 then 1 else 10 * Pow10(k - 1)
  }

  lemma {:induction false} DecimalRoundTrip(n: nat)
    ensures AllDigits(ToDecimal(n)) && DecimalValue(ToDecimal(n)) == n
  {
    if n >= 10 {
      DecimalRoundTrip(n / 10);
      var s := ToDecimal(n);
      assert s[..|s| - 1] == ToDecimal(n / 10);
    } else {
      var s := ToDecimal(n);
      assert s[..|s| - 1] == "";
      assert DecimalValue(s[..|s| - 1]) == 0;
    }
  }

  lemma {:induction false} DecimalLength(n: nat, k: nat)
    requires k >= 1 && n < Pow10(k)
    ensures |ToDecimal(n)| <= k
  {
    if n >= 10 {
      DecimalLength(n / 10, k - 1);
    }
  }

  lemma {:induction false} LeadingZeros(s: string, zeros: nat)
    requires AllDigits(s)
    ensures AllDigits(seq(zeros, _ => '0') + s) && DecimalValue(seq(zeros, _ => '0') + s) == DecimalValue(s)
  {
    var padded := seq(zeros, _ => '0') + s;
    if s != "" {
      LeadingZeros(s[..|s| - 1], zeros);
      assert padded[..|padded| - 1] == seq(zeros, _ => '0') + s[..|s| - 1];
    } else if zeros > 0 {
      LeadingZeros(s, zeros - 1);
      assert padded[..zeros - 1] == seq(zeros - 1, _ => '0') + s;
    } else {
      assert padded == "";
    }
  }

  // ----- Paths -----

  const PACKFILE_FOLDER := "pack"
  const INDEX_FOLDER := "index"

  function IndexName(number: u32): string {
    PadLeft(ToDecimal(number), 10)
  }

  /** Where a file is kept, below the backup folder. */
  function PathOf(file: FileInfo): (path: seq<string>)
    ensures |path| > 0
  {
    match file
    case Packfile(id) => [PACKFILE_FOLDER, HexEncode(id)[..2], HexEncode(id)]
    case Index(number) => [INDEX_FOLDER, IndexName(number)]
  }

  function ParsePackfilePath(path: seq<string>): Option<PackfileId> {
    if path == [] then None
    else
      var id := HexDecode(path[|path| - 1]);
      if id.Some? && |id.value| == 12 then Some(id.value) else None
  }

  function ParseIndexPath(path: seq<string>): Option<u32> {
    if path == [] then None else ParseU32(path[|path| - 1])
  }

  lemma {:induction false} PackfilePathParses(id: PackfileId)
    ensures ParsePackfilePath(PathOf(Packfile(id))) == Some(id)
    ensures var path := PathOf(Packfile(id));
            |path| == 3 && path[0] == "pack" && |path[2]| == 24 && path[1] == path[2][..2]
  {
    HexRoundTrip(id);
  }

  lemma {:induction false} TenDigits()
    ensures Pow10(10) == 10_000_000_000
  {
    assert Pow10(5) == 100_000;
    assert Pow10(10) == 100_000 * Pow10(5);
  }

  lemma {:induction false} IndexNameParses(number: u32)
    ensures |IndexName(number)| == 10 && AllDigits(IndexName(number)) && DecimalValue(IndexName(number)) == number
    ensures ParseIndexPath(PathOf(Index(number))) == Some(number)
  {
    hide Pow10, ToDecimal;
    DecimalRoundTrip(number);
    TenDigits();
    DecimalLength(number, 10);
    LeadingZeros(ToDecimal(number), 10 - |ToDecimal(number)|);
  }

  /** Two files never share a path. */
  lemma {:induction false} PathsAreDistinct(a: FileInfo, b: FileInfo)
    ensures PathOf(a) == PathOf(b) ==> a == b
  {
    if PathOf(a) == PathOf(b) {
      assert |PathOf(a)| == |PathOf(b)|;
      if a.Packfile? {
        PackfilePathParses(a.id);
        PackfilePathParses(b.id);
      } else {
        IndexNameParses(a.number);
        IndexNameParses(b.number);
      }
    }
  }

  // ----- Listing order -----

  predicate NameBefore(s: string, t: string) {
    if s == "" then t != ""
    else t != "" && (s[0] < t[0] || (s[0] == t[0] && NameBefore(s[1..], t[1..])))
  }

  lemma {:induction false} ValueBelow(s: string)
    requires AllDigits(s)
    ensures DecimalValue(s) < Pow10(|s|)
  {
    if s != "" {
      ValueBelow(s[..|s| - 1]);
    }
  }

  lemma {:induction false} LeadingDigit(d: nat, e: nat, p: nat, x: nat, y: nat)
    requires x < p && y < p && d < e
    ensures d * p + x < e * p + y
  {
    assert e * p == (e - 1) * p + p;
    if d < e - 1 {
      LeadingDigit(d, e - 1, p, x, y);
    }
  }

  lemma {:induction false} ScaledDigit(d: nat, p: nat)
    ensures 10 * (d * p) == d * (10 * p)
  {
  }

  lemma {:induction false} ValueFromFront(s: string)
    requires s != "" && AllDigits(s)
    ensures AllDigits(s[1..]) && DecimalValue(s) == (s[0] - '0') as int * Pow10(|s| - 1) + DecimalValue(s[1..])
  {
    if |s| > 1 {
      var front := s[..|s| - 1];
      ValueFromFront(front);
      assert front[1..] == s[1..][..|s| - 2];
      ScaledDigit((s[0] - '0') as int, Pow10(|s| - 2));
      ShiftedValue(s, front);
    } else {
      assert s[..0] == "" && s[1..] == "";
      assert DecimalValue(s[..0]) == 0;
    }
  }

  lemma {:induction false} ShiftedValue(s: string, front: string)
    requires |s| > 1 && AllDigits(s) && front == s[..|s| - 1]
    ensures AllDigits(s[1..]) && AllDigits(front[1..])
    ensures DecimalValue(s) == 10 * DecimalValue(front) + (s[|s| - 1] - '0') as int
    ensures DecimalValue(s[1..]) == 10 * DecimalValue(front[1..]) + (s[|s| - 1] - '0') as int
  {
    assert front[1..] == s[1..][..|s| - 2];
  }

  lemma {:induction false} OrderByDigits(s: string, t: string)
    requires AllDigits(s) && AllDigits(t) && |s| == |t|
    ensures NameBefore(s, t) <==> DecimalValue(s) < DecimalValue(t)
  {
    if s != "" {
      ValueFromFront(s);
      ValueFromFront(t);
      ValueBelow(s[1..]);
      ValueBelow(t[1..]);
      OrderByDigits(s[1..], t[1..]);
      CompareDigits((s[0] - '0') as int, (t[0] - '0') as int, Pow10(|s| - 1), DecimalValue(s[1..]),
                    DecimalValue(t[1..]));
    }
  }

  lemma {:induction false} CompareDigits(d: nat, e: nat, p: nat, x: nat, y: nat)
    requires x < p && y < p
    ensures d * p + x < e * p + y <==> d < e || (d == e && x < y)
  {
    if d < e {
      LeadingDigit(d, e, p, x, y);
    } else if e < d {
      LeadingDigit(e, d, p, y, x);
    }
  }

  /** Index files listed by name come in the order of their numbers. */
  lemma {:induction false} NamesSortAsNumbers(a: u32, b: u32)
    ensures NameBefore(IndexName(a), IndexName(b)) <==> a < b
  {
    IndexNameParses(a);
    IndexNameParses(b);
    OrderByDigits(IndexName(a), IndexName(b));
  }
}
