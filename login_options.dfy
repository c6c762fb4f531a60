/** Login options and the string helpers around them: the MD5 password
    shape test, the full name, the "sim/x/y/z" start-location parser with
    its defaults, and the saved-login map conversion. A C# string that may
    be null is an `Option<string>`. A `char` is a Unicode scalar value; where
    the source counts a string's `Length`, the model counts its UTF-16 code
    units (`Utf16`). */
module Login {
  import opened Wrappers

  datatype StartLocationType = Home | Last | Custom

  /** How the previous session ended; only `Normal` is ever chosen here. */
  datatype LastExecStatus = Normal | Abnormal(code: int)

  /** A grid entry: the login URI and platform are what the login reads. */
  datatype Grid = Grid(id: string, name: string, loginUri: string, platform: string)

  predicate IsNullOrEmpty(s: Option<string>)
  {
    s.None? || s.value == ""
  }

  /** The options record; a fresh one starts from `NewLoginOptions`. */
  datatype LoginOptions = LoginOptions(
    firstName: Option<string>, lastName: Option<string>, password: Option<string>,
    version: string, channel: string,
    startLocation: StartLocationType, startLocationCustom: string,
    grid: Option<Grid>, gridCustomLoginUri: string, lastExecEvent: LastExecStatus)
  {
    /** "First Last", or empty when either name is null or empty. */
    function FullName(): (r: string)
      ensures r == "" <==> IsNullOrEmpty(firstName) || IsNullOrEmpty(lastName)
      ensures r != "" ==> r == firstName.value + " " + lastName.value
    {
      if IsNullOrEmpty(firstName) || IsNullOrEmpty(lastName) then ""
      else firstName.value + " " + lastName.value
    }
  }

  /** The field initialisers of a new options object. */
  function NewLoginOptions(): LoginOptions
  {
    LoginOptions(None, None, None, "", "", Home, "", None, "", Normal)
  }

  /** A new options object starts at Home with a normal last exit, empty
      version, channel, custom location and custom URI, and no names, so its
      full name is empty. */
  lemma NewLoginOptionsDefaults()
    ensures var o := NewLoginOptions();
            && o.startLocation == Home && o.lastExecEvent == Normal
            && o.version == "" && o.channel == "" && o.startLocationCustom == "" && o.gridCustomLoginUri == ""
            && o.FullName() == ""
  {
  }

  // ---------------------------------------------------------------------
  // UTF-16 code units

  /** One UTF-16 code unit, the element of a .NET string. */
  type CodeUnit = x: int | 0 <= x < 0x1_0000

  /** The UTF-16 encoding of one scalar value: itself below U+10000, and
      otherwise a high surrogate followed by a low surrogate from which the
      value is recovered. */
  function Utf16Char(c: char): (r: seq<CodeUnit>)
    ensures c as int < 0x1_0000 ==> r == [c as int]
    ensures c as int >= 0x1_0000 ==>
              && |r| == 2
              && 0xD800 <= r[0] < 0xDC00 && 0xDC00 <= r[1] < 0xE000
              && c as int == 0x1_0000 + (r[0] as int - 0xD800) * 0x400 + (r[1] as int - 0xDC00)
  {
    if c as int < 0x1_0000 then [c as int]
    else
      var v := c as int - 0x1_0000;
      [0xD800 + v / 0x400, 0xDC00 + v % 0x400]
  }

  /** A string as the .NET runtime holds it; `String.Length` is `|Utf16(s)|`. */
  function Utf16(s: string): (r: seq<CodeUnit>)
    ensures |r| >= |s|
    decreases |s|
  {
    if s == [] then [] else Utf16Char(s[0]) + Utf16(s[1..])
  }

  /** Encoding distributes over concatenation. */
  lemma {:induction false} Utf16Append(a: string, b: string)
    ensures Utf16(a + b) == Utf16(a) + Utf16(b)
    decreases |a|
  {
    if a == [] {
      assert a + b == b;
    } else {
      assert (a + b)[0] == a[0] && (a + b)[1..] == a[1..] + b;
      Utf16Append(a[1..], b);
      calc {
        Utf16(a + b);
        Utf16Char(a[0]) + Utf16(a[1..] + b);
        Utf16Char(a[0]) + (Utf16(a[1..]) + Utf16(b));
        (Utf16Char(a[0]) + Utf16(a[1..])) + Utf16(b);
      }
    }
  }

  /** A string below U+10000 has one unit per character, the character itself. */
  lemma {:induction false} Utf16Bmp(s: string)
    requires forall i :: 0 <= i < |s| ==> s[i] as int < 0x1_0000
    ensures |Utf16(s)| == |s|
    ensures forall i :: 0 <= i < |s| ==> Utf16(s)[i] == s[i] as int
    decreases |s|
  {
    if s != [] {
      Utf16Bmp(s[1..]);
    }
  }

  // ---------------------------------------------------------------------
  // Password shape

  /** The salted-MD5 marker every pre-hashed password starts with. */
  const Md5Prefix: string := "$1$"

  /** A password is taken as already hashed when it is 35 UTF-16 units long
      and starts with "$1$". */
  function IsPasswordMD5(pass: string): (r: bool)
    ensures r ==> |Utf16(pass)| == 35 && |pass| >= 3 && pass[0] == '$' && pass[1] == '1' && pass[2] == '$'
  {
    |Utf16(pass)| == 35 && |pass| >= 3 && pass[..3] == Md5Prefix
  }

  /** Exactly the strings "$1$" followed by 32 UTF-16 units pass the test:
      a 32-digit hex digest behind the marker is recognised, and nothing
      else is. */
  lemma {:induction false} IsPasswordMD5Exactly(pass: string)
    ensures IsPasswordMD5(pass) <==> exists digest: string :: |Utf16(digest)| == 32 && pass == Md5Prefix + digest
  {
    Utf16Bmp(Md5Prefix);
    if IsPasswordMD5(pass) {
      assert pass == Md5Prefix + pass[3..];
      Utf16Append(Md5Prefix, pass[3..]);
    }
    if exists digest: string :: |Utf16(digest)| == 32 && pass == Md5Prefix + digest {
      var digest: string :| |Utf16(digest)| == 32 && pass == Md5Prefix + digest;
      Utf16Append(Md5Prefix, digest);
      assert pass[..3] == Md5Prefix;
    }
  }

  /** The length test counts units: "$1$", 30 letters and one U+1F600 is 34
      characters but 35 units, and it is taken as a hash. */
  lemma AstralDigestAccepted()
    ensures var pass := Md5Prefix + "aaaaaaaaaaaaaaaaaaaaaaaaaaaaaa" + "\U{1F600}";
            |pass| == 34 && IsPasswordMD5(pass)
  {
    var letters := Md5Prefix + "aaaaaaaaaaaaaaaaaaaaaaaaaaaaaa";
    Utf16Bmp(letters);
    Utf16Append(letters, "\U{1F600}");
    assert |Utf16("\U{1F600}")| == 2;
    assert (letters + "\U{1F600}")[..3] == Md5Prefix;
  }

  // ---------------------------------------------------------------------
  // String.Split on one character

  /** `s.Split(c)`: the pieces between occurrences of `c`, always at least
      one, empty pieces kept. */
  function SplitOn(s: string, c: char): (parts: seq<string>)
    ensures |parts| >= 1
    ensures forall k :: 0 <= k < |parts| ==> c !in parts[k]
    decreases |s|
  {
    if s == [] then [""]
    else
      var rest := SplitOn(s[1..], c);
      if s[0] == c then [""] + rest
      else [[s[0]] + rest[0]] + rest[1..]
  }

  /** The pieces joined back with `c`. */
  function Join(parts: seq<string>, c: char): string
    requires |parts| >= 1
  {
    if |parts| == 1 then parts[0] else parts[0] + [c] + Join(parts[1..], c)
  }

  /** Splitting loses nothing: joining the pieces gives the input back. */
  lemma {:induction false} JoinSplitOn(s: string, c: char)
    ensures Join(SplitOn(s, c), c) == s
    decreases |s|
  {
    if s != [] {
      var rest := SplitOn(s[1..], c);
      JoinSplitOn(s[1..], c);
      if s[0] == c {
        assert SplitOn(s, c)[1..] == rest;
      } else {
        var parts := SplitOn(s, c);
        if |rest| == 1 {
          assert parts == [[s[0]] + rest[0]];
        } else {
          assert parts[1..] == rest[1..];
          assert Join(rest, c) == rest[0] + [c] + Join(rest[1..], c);
        }
      }
    }
  }

  /** Joining pieces free of `c` and splitting again gives the pieces back. */
  lemma {:induction false} SplitOnJoin(parts: seq<string>, c: char)
    requires |parts| >= 1
    requires forall k :: 0 <= k < |parts| ==> c !in parts[k]
    ensures SplitOn(Join(parts, c), c) == parts
    decreases |parts|, |parts[0]|
  {
    if |parts| == 1 {
      NoSeparatorOnePiece(parts[0], c);
    } else if parts[0] == [] {
      var tail := Join(parts[1..], c);
      assert Join(parts, c) == [c] + tail;
      SplitOnJoin(parts[1..], c);
      SplitOnCons(c, tail, c);
      assert parts == [""] + parts[1..];
    } else {
      var shorter := [parts[0][1..]] + parts[1..];
      assert shorter[1..] == parts[1..];
      assert c !in shorter[0];
      SplitOnJoin(shorter, c);
      JoinPeel(parts, c);
      SplitOnCons(parts[0][0], Join(shorter, c), c);
      assert parts[0] == [parts[0][0]] + shorter[0];
      assert parts == [[parts[0][0]] + shorter[0]] + shorter[1..];
    }
  }

  /** The first character of a non-empty first piece comes first in the
      joined string. */
  lemma JoinPeel(parts: seq<string>, c: char)
    requires |parts| >= 2 && parts[0] != []
    ensures Join(parts, c) == [parts[0][0]] + Join([parts[0][1..]] + parts[1..], c)
  {
    var shorter := [parts[0][1..]] + parts[1..];
    assert shorter[1..] == parts[1..];
    assert parts[0] == [parts[0][0]] + shorter[0];
  }

  /** Splitting a string that starts with `x`: a separator opens a new
      empty piece, any other character joins the first piece. */
  lemma SplitOnCons(x: char, t: string, c: char)
    ensures var rest := SplitOn(t, c);
            SplitOn([x] + t, c) == if x == c then [""] + rest else [[x] + rest[0]] + rest[1..]
  {
    assert ([x] + t)[1..] == t;
  }

  /** A string without `c` splits into itself alone. */
  lemma {:induction false} NoSeparatorOnePiece(s: string, c: char)
    requires c !in s
    ensures SplitOn(s, c) == [s]
    decreases |s|
  {
    if s != [] {
      assert c !in s[1..];
      NoSeparatorOnePiece(s[1..], c);
      assert s == [s[0]] + s[1..];
    }
  }

  /** A string with `c` splits into at least two pieces, so index 1 exists. */
  lemma {:induction false} SeparatorTwoPieces(s: string, c: char)
    requires c in s
    ensures |SplitOn(s, c)| >= 2
    decreases |s|
  {
    if s[0] != c {
      assert c in s[1..];
      SeparatorTwoPieces(s[1..], c);
    }
  }

  // ---------------------------------------------------------------------
  // int.TryParse

  const MinInt32: int := -0x8000_0000
  const MaxInt32: int := 0x7fff_ffff

  /** The white space `int.TryParse` skips around a number. */
  predicate IsParseSpace(ch: char)
  {
    ch == ' ' || ('\t' <= ch <= '\r')
  }

  predicate IsDigit(ch: char)
  {
    '0' <= ch <= '9'
  }

  function StripLeading(s: string): (r: string)
    ensures |r| <= |s| && (r != [] ==> !IsParseSpace(r[0]))
    ensures r == s[|s| - |r|..]
  {
    if s != [] && IsParseSpace(s[0]) then StripLeading(s[1..]) else s
  }

  function StripTrailing(s: string): (r: string)
    ensures |r| <= |s| && (r != [] ==> !IsParseSpace(r[|r| - 1]))
    ensures r == s[..|r|]
  {
    if s != [] && IsParseSpace(s[|s| - 1]) then StripTrailing(s[..|s| - 1]) else s
  }

  /** The value of a string of decimal digits, most significant first. */
  function DigitsValue(ds: string): (v: nat)
    requires forall k :: 0 <= k < |ds| ==> IsDigit(ds[k])
  {
    if ds == [] then 0
    else
      assert IsDigit(ds[|ds| - 1]);
      DigitsValue(ds[..|ds| - 1]) * 10 + (ds[|ds| - 1] as int - '0' as int)
  }

  /** `int.TryParse(s, out v)`: optional surrounding white space, an
      optional sign, one or more decimal digits, and a value inside the
      32-bit range; anything else fails. */
  function ParseInt32(s: string): (r: Option<int>)
    ensures r.Some? ==> MinInt32 <= r.value <= MaxInt32
  {
    ParseSigned(StripTrailing(StripLeading(s)))
  }

  /** The number once the surrounding white space is gone. */
  function ParseSigned(t: string): (r: Option<int>)
    ensures r.Some? ==> MinInt32 <= r.value <= MaxInt32
  {
    var negative := t != [] && t[0] == '-';
    var digits := if t != [] && (t[0] == '-' || t[0] == '+') then t[1..] else t;
    if digits == [] || !(forall k :: 0 <= k < |digits| ==> IsDigit(digits[k])) then None
    else
      var magnitude: int := DigitsValue(digits);
      var v := if negative then 0 - magnitude else magnitude;
      if MinInt32 <= v <= MaxInt32 then Some(v) else None
  }

  /** Decimal digits of a natural number. */
  function ShowNat(n: nat): (s: string)
    ensures |s| >= 1 && forall k :: 0 <= k < |s| ==> IsDigit(s[k])
  {
    if n < 10 then [('0' as int + n) as char]
    else ShowNat(n / 10) + [('0' as int + n % 10) as char]
  }

  /** `n.ToString()`: a minus sign for negative values, then the digits. */
  function ShowInt(n: int): (s: string)
    ensures s != [] && !IsParseSpace(s[0]) && IsDigit(s[|s| - 1])
    ensures forall k :: 0 <= k < |s| ==> s[k] != '/'
  {
    if n < 0 then "-" + ShowNat(-n) else ShowNat(n)
  }

  lemma {:induction false} DigitsValueShowNat(n: nat)
    ensures DigitsValue(ShowNat(n)) == n
  {
    if n >= 10 {
      var s := ShowNat(n);
      assert s[..|s| - 1] == ShowNat(n / 10);
      DigitsValueShowNat(n / 10);
    }
  }

  /** Parsing a printed 32-bit value gives the value back. */
  lemma {:induction false} ParseShowInt(n: int)
    requires MinInt32 <= n <= MaxInt32
    ensures ParseInt32(ShowInt(n)) == Some(n)
  {
    if n < 0 {
      ParseShowNegative(n);
    } else {
      ParseShowNonNegative(n);
    }
  }

  lemma ParseShowNonNegative(n: int)
    requires 0 <= n <= MaxInt32
    ensures ParseInt32(ShowInt(n)) == Some(n)
  {
    var s := ShowNat(n);
    assert ShowInt(n) == s;
    assert IsDigit(s[0]);
    StripNoSpace(s);
    DigitsValueShowNat(n);
  }

  lemma ParseShowNegative(n: int)
    requires MinInt32 <= n < 0
    ensures ParseInt32(ShowInt(n)) == Some(n)
  {
    var d := ShowNat(-n);
    DigitsValueShowNat(-n);
    var s := ['-'] + d;
    assert ShowInt(n) == s;
    assert s[|s| - 1] == d[|d| - 1];
    StripNoSpace(s);
    ParseSignedNegative(d);
    assert ParseInt32(s) == ParseSigned(s);
  }

  /** A minus sign followed by digits whose value is at most 2^31 parses
      to the negated value. */
  lemma ParseSignedNegative(d: string)
    requires d != [] && forall k :: 0 <= k < |d| ==> IsDigit(d[k])
    requires DigitsValue(d) <= 0x8000_0000
    ensures ParseSigned(['-'] + d) == Some(0 - DigitsValue(d))
  {
    assert (['-'] + d)[1..] == d;
  }

  /** A string that neither starts nor ends with white space is left as it
      is by the stripping. */
  lemma StripNoSpace(s: string)
    requires s != [] && !IsParseSpace(s[0]) && !IsParseSpace(s[|s| - 1])
    ensures StripTrailing(StripLeading(s)) == s
  {
  }

  // ---------------------------------------------------------------------
  // Start location "sim/x/y/z"

  /** The region name: the text before the first '/', or all of it. */
  function GetSim(location: string): (r: string)
    ensures '/' !in r
    ensures '/' !in location ==> r == location
    ensures '/' in location ==> |r| < |location| && location[..|r|] == r && location[|r|] == '/'
  {
    if '/' !in location then location
    else
      JoinSplitOn(location, '/');
      SeparatorTwoPieces(location, '/');
      var parts := SplitOn(location, '/');
      assert location == parts[0] + ['/'] + Join(parts[1..], '/');
      parts[0]
  }

  /** Segment `index` parsed as an int, or `fallback` when the location has
      no '/', has too few segments, or the segment does not parse. */
  function Coordinate(location: string, index: nat, fallback: int): (r: int)
    ensures '/' !in location || |SplitOn(location, '/')| <= index ==> r == fallback
    ensures '/' in location && index < |SplitOn(location, '/')| ==>
              r == (match ParseInt32(SplitOn(location, '/')[index]) case Some(v) => v case None => fallback)
    ensures r != fallback ==> MinInt32 <= r <= MaxInt32
  {
    if '/' !in location then fallback
    else
      var parts := SplitOn(location, '/');
      if |parts| <= index then fallback
      else match ParseInt32(parts[index])
        case Some(v) => v
        case None => fallback
  }

  /** X: segment 1, default 128. */
  function GetX(location: string): int
  {
    Coordinate(location, 1, 128)
  }

  /** Y: segment 2 when there are more than two, default 128. */
  function GetY(location: string): int
  {
    Coordinate(location, 2, 128)
  }

  /** Z: segment 3 when there are more than three, default 0. */
  function GetZ(location: string): int
  {
    Coordinate(location, 3, 0)
  }

  /** Once a '/' is present, segment 1 exists: X falls back to 128 only
      when that segment does not parse. */
  lemma XSegmentExists(location: string)
    requires '/' in location
    ensures |SplitOn(location, '/')| >= 2
    ensures ParseInt32(SplitOn(location, '/')[1]).Some? ==> GetX(location) == ParseInt32(SplitOn(location, '/')[1]).value
    ensures ParseInt32(SplitOn(location, '/')[1]).None? ==> GetX(location) == 128
  {
    SeparatorTwoPieces(location, '/');
  }

  /** A location written as "sim/x/y/z". */
  function FormatLocation(sim: string, x: int, y: int, z: int): string
  {
    sim + "/" + ShowInt(x) + "/" + ShowInt(y) + "/" + ShowInt(z)
  }

  /** The parser reads back every part of a well-formed location. */
  lemma {:induction false} ParseFormattedLocation(sim: string, x: int, y: int, z: int)
    requires '/' !in sim
    requires MinInt32 <= x <= MaxInt32 && MinInt32 <= y <= MaxInt32 && MinInt32 <= z <= MaxInt32
    ensures var loc := FormatLocation(sim, x, y, z);
            GetSim(loc) == sim && GetX(loc) == x && GetY(loc) == y && GetZ(loc) == z
  {
    FormattedLocationSplits(sim, x, y, z);
    ParseShowInt(x);
    ParseShowInt(y);
    ParseShowInt(z);
  }

  /** A formatted location contains '/' and splits into its four parts. */
  lemma FormattedLocationSplits(sim: string, x: int, y: int, z: int)
    requires '/' !in sim
    ensures var loc := FormatLocation(sim, x, y, z);
            '/' in loc && SplitOn(loc, '/') == [sim, ShowInt(x), ShowInt(y), ShowInt(z)]
  {
    var parts := [sim, ShowInt(x), ShowInt(y), ShowInt(z)];
    var loc := FormatLocation(sim, x, y, z);
    assert Join(parts, '/') == loc by {
      assert Join(parts[3..], '/') == ShowInt(z);
      assert Join(parts[2..], '/') == ShowInt(y) + "/" + ShowInt(z);
      assert Join(parts[1..], '/') == ShowInt(x) + "/" + ShowInt(y) + "/" + ShowInt(z);
    }
    SplitOnJoin(parts, '/');
    assert loc[|sim|] == '/';
  }

  /** A location without '/' is all region name, at (128, 128, 0). */
  lemma RegionOnlyLocation(location: string)
    requires '/' !in location
    ensures GetSim(location) == location && GetX(location) == 128 && GetY(location) == 128 && GetZ(location) == 0
  {
  }

  // ---------------------------------------------------------------------
  // Saved logins

  /** A structured-data value; a map is keyed by strings. */
  datatype OsdValue = OsdUndefined | OsdString(s: string) | OsdInteger(i: int)
  datatype Osd = OsdMap(fields: map<string, OsdValue>) | OsdScalar(value: OsdValue)

  /** A missing key reads as the undefined value. */
  function Lookup(fields: map<string, OsdValue>, key: string): OsdValue
  {
    if key in fields then fields[key] else OsdUndefined
  }

  /** Implicit string conversion; undefined reads as "". */
  function AsString(v: OsdValue): string
  {
    match v
    case OsdUndefined => ""
    case OsdString(s) => s
    case OsdInteger(i) => ShowInt(i)
  }

  /** Implicit int conversion; undefined and unparsable text read as 0. */
  function AsInteger(v: OsdValue): int
  {
    match v
    case OsdUndefined => 0
    case OsdString(s) => (match ParseInt32(s) case Some(n) => n case None => 0)
    case OsdInteger(i) => i
  }

  datatype SavedLogin = SavedLogin(username: string, password: string, gridId: string,
                                   customUri: string, startLocationType: int, customStartLocation: string)

  /** The six keys a saved login is stored under. */
  const SavedLoginKeys: set<string> :=
    {"username", "password", "grid", "custom_url", "location_type", "custom_location"}

  function ToOSD(s: SavedLogin): (r: Osd)
    ensures r.OsdMap? && r.fields.Keys == SavedLoginKeys
  {
    OsdMap(map["username" := OsdString(s.username), "password" := OsdString(s.password),
               "grid" := OsdString(s.gridId), "custom_url" := OsdString(s.customUri),
               "location_type" := OsdInteger(s.startLocationType),
               "custom_location" := OsdString(s.customStartLocation)])
  }

  /** Null for anything but a map; otherwise each field from its key, with
      a missing `location_type` read as 1 (Last). */
  function FromOSD(data: Osd): (r: Option<SavedLogin>)
    ensures r.None? <==> !data.OsdMap?
    ensures r.Some? && "location_type" !in data.fields ==> r.value.startLocationType == 1
    ensures r.Some? && "location_type" in data.fields ==>
              r.value.startLocationType == AsInteger(data.fields["location_type"])
  {
    match data
    case OsdScalar(_) => None
    case OsdMap(m) =>
      Some(SavedLogin(AsString(Lookup(m, "username")), AsString(Lookup(m, "password")),
                      AsString(Lookup(m, "grid")), AsString(Lookup(m, "custom_url")),
                      if "location_type" in m then AsInteger(m["location_type"]) else 1,
                      AsString(Lookup(m, "custom_location"))))
  }

  /** Storing and reading back a saved login gives it back unchanged. */
  lemma FromToOSD(s: SavedLogin)
    ensures FromOSD(ToOSD(s)) == Some(s)
  {
  }

  /** FromOSD reads only the keys ToOSD writes: entries under other keys do
      not change the result. */
  lemma FromOSDReadsOnlySavedKeys(m: map<string, OsdValue>, extra: map<string, OsdValue>)
    requires forall k :: k in extra ==> k !in SavedLoginKeys
    ensures FromOSD(OsdMap(m + extra)) == FromOSD(OsdMap(m))
  {
    var merged := m + extra;
    forall k | k in SavedLoginKeys
      ensures Lookup(merged, k) == Lookup(m, k)
    {
      assert k !in extra;
    }
    assert Lookup(merged, "location_type") == Lookup(m, "location_type");
    assert ("location_type" in merged) == ("location_type" in m);
  }
}
