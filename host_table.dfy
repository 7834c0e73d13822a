/** The client side of the hosts page, static/hosts.js: the three row
    comparators, the choice among them from the page's query string, and
    the unit selection of `formatStorage`. Rows are the `HostDisplayInfo`
    records the server sends; JavaScript numbers are taken as integers. */
module HostTable {
  import opened Hosts

  // ---------------------------------------------------------------------
  // String order
  // ---------------------------------------------------------------------

  /** JavaScript's `<` on strings: compare character by character; a proper
      prefix comes first. */
  function StrLess(a: string, b: string): bool
  {
    if a == [] then b != []
    else if b == [] then false
    else if a[0] != b[0] then a[0] < b[0]
    else StrLess(a[1..], b[1..])
  }

  /** Lexicographic order stated directly: `a` is a proper prefix of `b`, or
      the two agree up to some position where `a` has the smaller character. */
  ghost predicate LexLess(a: string, b: string)
  {
    || (|a| < |b| && a == b[..|a|])
    || exists k :: 0 <= k < |a| && k < |b| && a[..k] == b[..k] && a[k] < b[k]
  }

  lemma {:induction false} StrLessIsLex(a: string, b: string)
    ensures StrLess(a, b) <==> LexLess(a, b)
  {
    if a == [] || b == [] {
    } else if a[0] != b[0] {
      if StrLess(a, b) {
        assert a[..0] == b[..0];
      }
      if LexLess(a, b) && !(|a| < |b| && a == b[..|a|]) {
        var k :| 0 <= k < |a| && k < |b| && a[..k] == b[..k] && a[k] < b[k];
        if k > 0 {
          assert a[..k][0] == b[..k][0];
        }
      }
    } else {
      StrLessIsLex(a[1..], b[1..]);
      LexLessTail(a, b);
    }
  }

  /** Strings with the same first character are ordered by their tails. */
  lemma LexLessTail(a: string, b: string)
    requires a != [] && b != [] && a[0] == b[0]
    ensures LexLess(a, b) <==> LexLess(a[1..], b[1..])
  {
    if LexLess(a, b) {
      LexLessDropHead(a, b);
    }
    if LexLess(a[1..], b[1..]) {
      LexLessAddHead(a, b);
    }
  }

  lemma LexLessDropHead(a: string, b: string)
    requires a != [] && b != [] && a[0] == b[0] && LexLess(a, b)
    ensures LexLess(a[1..], b[1..])
  {
    var a', b' := a[1..], b[1..];
    if |a| < |b| && a == b[..|a|] {
      assert a' == b'[..|a'|];
    } else {
      var k :| 0 <= k < |a| && k < |b| && a[..k] == b[..k] && a[k] < b[k];
      assert k != 0;
      assert a'[..k - 1] == a[1..k] == b[1..k] == b'[..k - 1];
      assert a'[k - 1] < b'[k - 1];
    }
  }

  lemma LexLessAddHead(a: string, b: string)
    requires a != [] && b != [] && a[0] == b[0] && LexLess(a[1..], b[1..])
    ensures LexLess(a, b)
  {
    var a', b' := a[1..], b[1..];
    if |a'| < |b'| && a' == b'[..|a'|] {
      assert a == [a[0]] + a' && b[..|a|] == [b[0]] + b'[..|a'|];
    } else {
      var k :| 0 <= k < |a'| && k < |b'| && a'[..k] == b'[..k] && a'[k] < b'[k];
      assert a[..k + 1] == [a[0]] + a'[..k] && b[..k + 1] == [b[0]] + b'[..k];
      assert a[k + 1] < b[k + 1];
    }
  }

  lemma {:induction false} StrLessIrreflexive(a: string)
    ensures !StrLess(a, a)
  {
    if a != [] {
      StrLessIrreflexive(a[1..]);
    }
  }

  lemma {:induction false} StrLessTrichotomy(a: string, b: string)
    ensures a == b || StrLess(a, b) || StrLess(b, a)
    ensures !(StrLess(a, b) && StrLess(b, a))
  {
    if a != [] && b != [] && a[0] == b[0] {
      StrLessTrichotomy(a[1..], b[1..]);
      if a[1..] == b[1..] {
        assert a == [a[0]] + a[1..] && b == [b[0]] + b[1..];
      }
    }
  }

  lemma {:induction false} StrLessTransitive(a: string, b: string, c: string)
    requires StrLess(a, b) && StrLess(b, c)
    ensures StrLess(a, c)
  {
    if a != [] && b != [] && c != [] && a[0] == b[0] && b[0] == c[0] {
      StrLessTransitive(a[1..], b[1..], c[1..]);
    }
  }

  // ---------------------------------------------------------------------
  // Comparators
  // ---------------------------------------------------------------------

  /** `addrSort`: -1, 1 or 0, and 0 only for equal addresses. */
  function AddrSort(a: HostDisplayInfo, b: HostDisplayInfo): (r: int)
    ensures r == -1 || r == 0 || r == 1
    ensures r == 0 <==> a.ipAddress == b.ipAddress
  {
    StrLessTrichotomy(a.ipAddress, b.ipAddress);
    StrLessIrreflexive(a.ipAddress);
    if StrLess(a.ipAddress, b.ipAddress) then -1
    else if StrLess(b.ipAddress, a.ipAddress) then 1
    else 0
  }

  /** `storageSort`: negative, zero or positive as the first row has less,
      the same or more total storage. */
  function StorageSort(a: HostDisplayInfo, b: HostDisplayInfo): (r: int)
    ensures r < 0 <==> a.totalStorage < b.totalStorage
    ensures r == 0 <==> a.totalStorage == b.totalStorage
  {
    a.totalStorage - b.totalStorage
  }

  /** `priceSort`: negative, zero or positive as the first row is cheaper,
      as dear or dearer. */
  function PriceSort(a: HostDisplayInfo, b: HostDisplayInfo): (r: int)
    ensures r < 0 <==> a.price < b.price
    ensures r == 0 <==> a.price == b.price
  {
    a.price - b.price
  }

  function Sign(x: int): int
  {
    if x < 0 then -1 else if x == 0 then 0 else 1
  }

  /** `addrSort` answers -1, 0 or 1 by lexicographic address order, 0 only
      for equal addresses, and swapping the rows negates the answer. */
  lemma AddrSortOrder(a: HostDisplayInfo, b: HostDisplayInfo)
    ensures AddrSort(a, b) == -1 <==> LexLess(a.ipAddress, b.ipAddress)
    ensures AddrSort(a, b) == 1 <==> LexLess(b.ipAddress, a.ipAddress)
    ensures AddrSort(a, b) == 0 <==> a.ipAddress == b.ipAddress
    ensures AddrSort(b, a) == -AddrSort(a, b)
  {
    StrLessIsLex(a.ipAddress, b.ipAddress);
    StrLessIsLex(b.ipAddress, a.ipAddress);
    StrLessTrichotomy(a.ipAddress, b.ipAddress);
    if a.ipAddress == b.ipAddress {
      StrLessIrreflexive(a.ipAddress);
    }
  }

  /** The sign of `storageSort` and `priceSort` is the sign of the storage
      and of the price difference. */
  lemma NumericSortSigns(a: HostDisplayInfo, b: HostDisplayInfo)
    ensures Sign(StorageSort(a, b)) == -1 <==> a.totalStorage < b.totalStorage
    ensures Sign(StorageSort(a, b)) == 0 <==> a.totalStorage == b.totalStorage
    ensures Sign(PriceSort(a, b)) == -1 <==> a.price < b.price
    ensures Sign(PriceSort(a, b)) == 0 <==> a.price == b.price
    ensures StorageSort(b, a) == -StorageSort(a, b) && PriceSort(b, a) == -PriceSort(a, b)
  {
  }

  /** The comparator `getSortFunc` hands to `Array.prototype.sort`. */
  datatype SortKind = ByAddr | ByStorage | ByPrice

  function Compare(kind: SortKind, a: HostDisplayInfo, b: HostDisplayInfo): int
  {
    match kind
    case ByAddr => AddrSort(a, b)
    case ByStorage => StorageSort(a, b)
    case ByPrice => PriceSort(a, b)
  }

  /** Each comparator is consistent, as `sort` requires: swapping the rows
      flips the sign, and "not after" is transitive. */
  lemma CompareConsistent(kind: SortKind, a: HostDisplayInfo, b: HostDisplayInfo, c: HostDisplayInfo)
    ensures Sign(Compare(kind, b, a)) == -Sign(Compare(kind, a, b))
    ensures Compare(kind, a, b) <= 0 && Compare(kind, b, c) <= 0 ==> Compare(kind, a, c) <= 0
  {
    if kind.ByAddr? {
      AddrSortOrder(a, b);
      AddrSortOrder(b, c);
      AddrSortOrder(a, c);
      if StrLess(a.ipAddress, b.ipAddress) && StrLess(b.ipAddress, c.ipAddress) {
        StrLessTransitive(a.ipAddress, b.ipAddress, c.ipAddress);
      }
    }
  }

  /** `getSortFunc`: the comparator named by the "sort" entry of the page's
      parsed query string; price order when there is none or it names
      nothing known. */
  function GetSortFunc(query: map<string, string>): (kind: SortKind)
    ensures kind == ByAddr <==> "sort" in query && query["sort"] == "addr"
    ensures kind == ByStorage <==> "sort" in query && query["sort"] == "storage"
    ensures kind == ByPrice <==> "sort" !in query || query["sort"] !in {"addr", "storage"}
  {
    if "sort" !in query then ByPrice
    else match query["sort"]
      case "addr" => ByAddr
      case "storage" => ByStorage
      case _ => ByPrice
  }

  // ---------------------------------------------------------------------
  // Storage units
  // ---------------------------------------------------------------------

  const Suffixes: seq<string> := ["B", "KB", "MB", "GB", "TB"]
  const DefaultFormat := "GB"

  /** `toUpperCase` on ASCII letters; other characters are kept. */
  function ToUpper(s: string): (u: string)
    ensures |u| == |s|
    ensures forall i :: 0 <= i < |s| ==>
              if 'a' <= s[i] <= 'z' then u[i] as int == s[i] as int - 32 else u[i] == s[i]
  {
    if s == [] then []
    else [if 'a' <= s[0] <= 'z' then (s[0] as int - 32) as char else s[0]] + ToUpper(s[1..])
  }

  /** `Array.prototype.indexOf`: the first position of `x`, or -1. */
  function IndexOf(xs: seq<string>, x: string): (r: int)
    ensures -1 <= r < |xs|
    ensures r == -1 <==> x !in xs
    ensures r >= 0 ==> xs[r] == x && x !in xs[..r]
  {
    if xs == [] then -1
    else if xs[0] == x then 0
    else var r := IndexOf(xs[1..], x); if r < 0 then -1 else r + 1
  }

  /** The unit `formatStorage` ends up printing: the one asked for when its
      upper-case form is a known suffix, "GB" otherwise. */
  function ChosenFormat(format: string): string
  {
    if IndexOf(Suffixes, ToUpper(format)) < 0 then DefaultFormat else format
  }

  /** The second lookup, with its fallback to index 2. */
  function SuffixIndex(format: string): (idx: nat)
  {
    var i := IndexOf(Suffixes, ToUpper(ChosenFormat(format)));
    if i < 0 then 2 else i
  }

  function Pow(base: nat, e: nat): nat
  {
    if e == 0 then 1 else base * Pow(base, e - 1)
  }

  /** The divisor `Math.pow(1000, suffixIndex)`. */
  function BytesPer(format: string): nat
  {
    Pow(1000, SuffixIndex(format))
  }

  lemma SplitAt(x: string, y: string)
    ensures |x + y| == |x| + |y| && (x + y)[..|x|] == x && (x + y)[|x|..] == y
  {
  }

  /** `formatStorage`. The floating-point division and `toFixed(2)` are the
      parameter `fixed`, given the byte count and the divisor. */
  function FormatStorage(storageBytes: int, format: string, fixed: (int, nat) -> string): (text: string)
    ensures var number := fixed(storageBytes, Pow(1000, SuffixIndex(format)));
            && |text| == |number| + 1 + |ChosenFormat(format)|
            && text[..|number|] == number
            && text[|number|..] == " " + ChosenFormat(format)
  {
    var number, unit := fixed(storageBytes, BytesPer(format)), ChosenFormat(format);
    SplitAt(number, " " + unit);
    number + (" " + unit)
  }

  /** The unit is kept exactly when it names a known suffix in any case, and
      is replaced by "GB" otherwise. */
  lemma ChosenFormatChoice(format: string)
    ensures ToUpper(format) in Suffixes ==> ChosenFormat(format) == format
    ensures ToUpper(format) !in Suffixes ==> ChosenFormat(format) == DefaultFormat
    ensures ToUpper(ChosenFormat(format)) in Suffixes
  {
    assert ToUpper(DefaultFormat) == "GB";
  }

  /** After the replacement the second lookup always succeeds, so the
      fallback to index 2 is never taken; the index names the printed unit. */
  lemma SuffixIndexFound(format: string)
    ensures 0 <= IndexOf(Suffixes, ToUpper(ChosenFormat(format))) < |Suffixes|
    ensures SuffixIndex(format) == IndexOf(Suffixes, ToUpper(ChosenFormat(format)))
    ensures Suffixes[SuffixIndex(format)] == ToUpper(ChosenFormat(format))
  {
    ChosenFormatChoice(format);
  }

  /** The divisor is 1000 to the power of the unit's position: 1 for bytes
      up to 10^12 for terabytes, and 10^9 for an unknown unit. */
  lemma BytesPerUnits(format: string)
    ensures ToUpper(format) == "B" ==> BytesPer(format) == 1
    ensures ToUpper(format) == "KB" ==> BytesPer(format) == 1000
    ensures ToUpper(format) == "MB" ==> BytesPer(format) == 1000000
    ensures ToUpper(format) == "GB" ==> BytesPer(format) == 1000000000
    ensures ToUpper(format) == "TB" ==> BytesPer(format) == 1000000000000
    ensures ToUpper(format) !in Suffixes ==> BytesPer(format) == 1000000000
  {
    SuffixIndexFound(format);
    ChosenFormatChoice(format);
    PowAtSuffix(SuffixIndex(format));
  }

  /** The divisor for the unit at each position of `Suffixes`. */
  lemma PowAtSuffix(i: nat)
    requires i < |Suffixes|
    ensures Suffixes[i] == "B" ==> Pow(1000, i) == 1
    ensures Suffixes[i] == "KB" ==> Pow(1000, i) == 1000
    ensures Suffixes[i] == "MB" ==> Pow(1000, i) == 1000000
    ensures Suffixes[i] == "GB" ==> Pow(1000, i) == 1000000000
    ensures Suffixes[i] == "TB" ==> Pow(1000, i) == 1000000000000
  {
    if i == 0 {
      assert Suffixes[0] == "B" && Pow(1000, 0) == 1;
    } else if i == 1 {
      assert Suffixes[1] == "KB" && Pow(1000, 1) == 1000;
    } else if i == 2 {
      assert Suffixes[2] == "MB" && Pow(1000, 2) == 1000000;
    } else if i == 3 {
      assert Suffixes[3] == "GB" && Pow(1000, 3) == 1000000000;
    } else {
      assert Suffixes[4] == "TB" && Pow(1000, 4) == 1000000000000;
    }
  }

  /** The text ends with a space and the chosen unit. */
  lemma FormatStorageEnds(storageBytes: int, format: string, fixed: (int, nat) -> string)
    ensures var s := FormatStorage(storageBytes, format, fixed);
            var tail := " " + ChosenFormat(format);
            |s| >= |tail| && s[|s| - |tail|..] == tail
  {
    var s := FormatStorage(storageBytes, format, fixed);
    var tail := " " + ChosenFormat(format);
    assert s == fixed(storageBytes, BytesPer(format)) + tail;
  }
}
