/** Credential normalisation done by `BeginLogin`: trimming and splitting
    the user name on runs of '.' and ' ', the "Resident" fallback, the
    blank-field check, the password choice (pass a pre-hashed password
    through, otherwise hash at most its first 16 UTF-16 units) and the start
    location string. Hashing, the grid list and the network call are
    outside; the login request is returned as a value. */
module Credentials {
  import Wrappers
  import Login

  // ---------------------------------------------------------------------
  // String.Trim

  /** `Char.IsWhiteSpace`: the Unicode space, line and paragraph separators
      and the controls U+0009..U+000D and U+0085. */
  predicate IsWhiteSpace(ch: char)
  {
    ('\t' <= ch <= '\r') || ch == ' ' || ch == '\U{85}' || ch == '\U{A0}' || ch == '\U{1680}'
    || ('\U{2000}' <= ch <= '\U{200A}') || ch == '\U{2028}' || ch == '\U{2029}'
    || ch == '\U{202F}' || ch == '\U{205F}' || ch == '\U{3000}'
  }

  function TrimStart(s: string): (r: string)
    ensures |r| <= |s| && r == s[|s| - |r|..]
    ensures r != [] ==> !IsWhiteSpace(r[0])
    ensures forall k :: 0 <= k < |s| - |r| ==> IsWhiteSpace(s[k])
  {
    if s != [] && IsWhiteSpace(s[0]) then
      var r := TrimStart(s[1..]);
      assert forall k :: 1 <= k < |s| - |r| ==> s[k] == s[1..][k - 1];
      r
    else s
  }

  function TrimEnd(s: string): (r: string)
    ensures |r| <= |s| && r == s[..|r|]
    ensures r != [] ==> !IsWhiteSpace(r[|r| - 1])
    ensures forall k :: |r| <= k < |s| ==> IsWhiteSpace(s[k])
  {
    if s != [] && IsWhiteSpace(s[|s| - 1]) then TrimEnd(s[..|s| - 1]) else s
  }

  /** `s.Trim()`: a contiguous piece of `s` with no white space at either
      end, everything removed being white space. */
  function Trim(s: string): (r: string)
    ensures r == [] || (!IsWhiteSpace(r[0]) && !IsWhiteSpace(r[|r| - 1]))
    ensures |r| <= |s|
  {
    TrimEnd(TrimStart(s))
  }

  /** Trim removes only white space, from the two ends: what remains is the
      piece of `s` starting at the first other character. */
  lemma TrimRemovesOnlyEnds(s: string)
    ensures var i := |s| - |TrimStart(s)|; var r := Trim(s);
            i + |r| <= |s| && r == s[i..i + |r|]
            && (forall k :: 0 <= k < i ==> IsWhiteSpace(s[k]))
            && (forall k :: i + |r| <= k < |s| ==> IsWhiteSpace(s[k]))
  {
    var front := TrimStart(s);
    var r := TrimEnd(front);
    var i := |s| - |front|;
    assert front == s[i..];
    assert r == front[..|r|];
    assert r == s[i..i + |r|];
    forall k | i + |r| <= k < |s|
      ensures IsWhiteSpace(s[k])
    {
      assert s[k] == front[k - i];
      assert |r| <= k - i < |front|;
    }
  }

  /** A string with no white space at its ends trims to itself. */
  lemma TrimNoOp(s: string)
    requires s == [] || (!IsWhiteSpace(s[0]) && !IsWhiteSpace(s[|s| - 1]))
    ensures Trim(s) == s
  {
  }

  /** Trimming twice is trimming once. */
  lemma TrimIdempotent(s: string)
    ensures Trim(Trim(s)) == Trim(s)
  {
    TrimNoOp(Trim(s));
  }

  // ---------------------------------------------------------------------
  // Regex.Split(name, "[. ]+")

  predicate IsNameSeparator(ch: char)
  {
    ch == '.' || ch == ' '
  }

  predicate NoSeparator(s: string)
  {
    forall k :: 0 <= k < |s| ==> !IsNameSeparator(s[k])
  }

  /** The rest of `s` after its leading run of separators. */
  function DropSeparators(s: string): (r: string)
    ensures |r| <= |s| && (r != [] ==> !IsNameSeparator(r[0]))
  {
    if s != [] && IsNameSeparator(s[0]) then DropSeparators(s[1..]) else s
  }

  /** The pieces between maximal runs of '.' and ' '. A leading or trailing
      run leaves an empty first or last piece; inner pieces are never empty. */
  function SplitNameRuns(s: string): (parts: seq<string>)
    ensures |parts| >= 1
    ensures forall k :: 0 <= k < |parts| ==> NoSeparator(parts[k])
    ensures forall k :: 0 < k < |parts| - 1 ==> parts[k] != ""
    ensures s != [] && !IsNameSeparator(s[0]) ==> parts[0] != ""
    decreases |s|
  {
    if s == [] then [""]
    else if IsNameSeparator(s[0]) then
      var after := SplitNameRuns(DropSeparators(s[1..]));
      [""] + after
    else
      var rest := SplitNameRuns(s[1..]);
      [[s[0]] + rest[0]] + rest[1..]
  }

  /** A name without separators is one piece. */
  lemma {:induction false} OnePiece(s: string)
    requires NoSeparator(s)
    ensures SplitNameRuns(s) == [s]
    decreases |s|
  {
    if s != [] {
      OnePiece(s[1..]);
      assert s == [s[0]] + s[1..];
    }
  }

  /** "first last" splits into exactly the two names when neither holds a
      separator. */
  lemma {:induction false} TwoPieces(first: string, last: string)
    requires NoSeparator(first) && NoSeparator(last)
    ensures SplitNameRuns(first + " " + last) == [first, last]
    decreases |first|
  {
    var s := first + " " + last;
    if first == [] {
      assert s == [' '] + last;
      assert s[1..] == last;
      assert DropSeparators(last) == last;
      OnePiece(last);
    } else {
      assert s[1..] == first[1..] + " " + last;
      TwoPieces(first[1..], last);
      assert first == [first[0]] + first[1..];
    }
  }

  // ---------------------------------------------------------------------
  // Names

  datatype Names = Names(first: string, last: string)

  const FallbackLastName: string := "Resident"

  /** Two pieces give first and last name; any other count gives the whole
      trimmed user name and "Resident". */
  function NormaliseName(username: string): (n: Names)
    ensures var parts := SplitNameRuns(Trim(username));
            |parts| == 2 ==> n == Names(parts[0], parts[1])
    ensures var parts := SplitNameRuns(Trim(username));
            |parts| != 2 ==> n == Names(Trim(username), FallbackLastName)
  {
    var trimmed := Trim(username);
    var parts := SplitNameRuns(trimmed);
    if |parts| == 2 then Names(parts[0], parts[1]) else Names(trimmed, FallbackLastName)
  }

  /** A name word: not empty, no white space, no '.'. */
  predicate IsNameWord(w: string)
  {
    w != [] && forall k :: 0 <= k < |w| ==> !IsWhiteSpace(w[k]) && w[k] != '.'
  }

  /** Normalising the full name of two name words gives them back: the
      name split inverts `FullName`. */
  lemma NameRoundTrip(first: string, last: string)
    requires IsNameWord(first) && IsNameWord(last)
    ensures var o := Login.NewLoginOptions().(firstName := Wrappers.Some(first), lastName := Wrappers.Some(last));
            NormaliseName(o.FullName()) == Names(first, last)
  {
    var full := first + " " + last;
    assert full[0] == first[0] && full[|full| - 1] == last[|last| - 1];
    TrimNoOp(full);
    WordHasNoSeparator(first);
    WordHasNoSeparator(last);
    TwoPieces(first, last);
  }

  lemma WordHasNoSeparator(w: string)
    requires IsNameWord(w)
    ensures NoSeparator(w) && !IsWhiteSpace(w[0]) && !IsWhiteSpace(w[|w| - 1])
  {
    forall k | 0 <= k < |w|
      ensures !IsNameSeparator(w[k])
    {
      assert !IsWhiteSpace(w[k]);
    }
  }

  /** A single name word logs in as "word Resident". */
  lemma SingleWordIsResident(w: string)
    requires IsNameWord(w)
    ensures NormaliseName(w) == Names(w, FallbackLastName)
  {
    WordHasNoSeparator(w);
    TrimNoOp(w);
    OnePiece(w);
  }

  /** A single name word followed by '.' splits into the word and an empty
      piece, so the last name is empty and the login is refused as blank. */
  lemma TrailingDotGivesEmptyLastName(w: string)
    requires IsNameWord(w)
    ensures NormaliseName(w + ".") == Names(w, "")
  {
    var s := w + ".";
    WordHasNoSeparator(w);
    assert s[0] == w[0] && s[|s| - 1] == '.';
    TrimNoOp(s);
    TrailingRun(w);
  }

  lemma {:induction false} TrailingRun(w: string)
    requires NoSeparator(w)
    ensures SplitNameRuns(w + ".") == [w, ""]
    decreases |w|
  {
    var s := w + ".";
    if w == [] {
      assert s == ".";
      assert s[1..] == [];
    } else {
      assert s[1..] == w[1..] + ".";
      TrailingRun(w[1..]);
      assert w == [w[0]] + w[1..];
    }
  }

  // ---------------------------------------------------------------------
  // Password

  /** What is sent as the password: a pre-hashed password as it is, or the
      MD5 of the UTF-16 units given to it (hashing is outside the model). */
  datatype PasswordChoice = AsIs(hash: string) | Md5Of(input: seq<Login.CodeUnit>)

  const HashedPrefixLength: nat := 16

  /** `Length > 16` and `Substring(0, 16)` count UTF-16 units, so the cut
      may fall between the two halves of a surrogate pair. */
  function ChoosePassword(password: string): (c: PasswordChoice)
    ensures c.AsIs? <==> Login.IsPasswordMD5(password)
    ensures c.AsIs? ==> c.hash == password
    ensures c.Md5Of? ==> |c.input| == if |Login.Utf16(password)| > HashedPrefixLength then HashedPrefixLength else |Login.Utf16(password)|
    ensures c.Md5Of? ==> c.input == Login.Utf16(password)[..|c.input|]
  {
    var units := Login.Utf16(password);
    if Login.IsPasswordMD5(password) then AsIs(password)
    else if |units| > HashedPrefixLength then Md5Of(units[..HashedPrefixLength])
    else Md5Of(units)
  }

  /** Characters after the 16th never reach the hash: two passwords that
      are not pre-hashed and share their first 16 characters hash alike. */
  lemma PasswordTailIgnored(p: string, q: string)
    requires !Login.IsPasswordMD5(p) && !Login.IsPasswordMD5(q)
    requires |p| >= HashedPrefixLength && |q| >= HashedPrefixLength
    requires p[..HashedPrefixLength] == q[..HashedPrefixLength]
    ensures ChoosePassword(p) == ChoosePassword(q)
  {
    var n := HashedPrefixLength;
    assert p == p[..n] + p[n..] && q == q[..n] + q[n..];
    Login.Utf16Append(p[..n], p[n..]);
    Login.Utf16Append(q[..n], q[n..]);
    assert Login.Utf16(p)[..n] == Login.Utf16(p[..n])[..n];
    assert Login.Utf16(q)[..n] == Login.Utf16(q[..n])[..n];
  }

  /** A password below U+10000 hashes its first min(length, 16) characters. */
  lemma BmpPasswordPrefix(p: string)
    requires !Login.IsPasswordMD5(p)
    requires forall i :: 0 <= i < |p| ==> p[i] as int < 0x1_0000
    ensures var n := if |p| > HashedPrefixLength then HashedPrefixLength else |p|;
            ChoosePassword(p) == Md5Of(seq(n, i requires 0 <= i < n => p[i] as int))
  {
    Login.Utf16Bmp(p);
  }

  /** A run of n characters above U+FFFF (such as U+1F600) is 2n units. */
  lemma {:induction false} AstralRunLength(c: char, n: nat)
    requires c as int >= 0x1_0000
    ensures |Login.Utf16(seq(n, i => c))| == 2 * n
  {
    if n > 0 {
      var s := seq(n, i => c);
      assert s[1..] == seq(n - 1, i => c);
      AstralRunLength(c, n - 1);
    }
  }

  /** Nine characters above U+FFFF are 18 units: the cut keeps 16 of them,
      the first eight characters. */
  lemma AstralPasswordCut(c: char)
    requires c as int >= 0x1_0000
    ensures ChoosePassword(seq(9, i => c)) == Md5Of(Login.Utf16(seq(8, i => c)))
  {
    var eight := seq(8, i => c);
    assert seq(9, i => c) == eight + [c];
    AstralRunLength(c, 8);
    AstralRunLength(c, 9);
    Login.Utf16Append(eight, [c]);
  }

  // ---------------------------------------------------------------------
  // Start location

  /** The `Start` login parameter: "home", "last", or for a custom location
      the grid's start URI (outside the model, a parameter) built from the
      parsed trimmed location. */
  function StartString(t: Login.StartLocationType, custom: string,
                       startUri: (string, int, int, int) -> string): (r: string)
    ensures t == Login.Home ==> r == "home"
    ensures t == Login.Last ==> r == "last"
  {
    match t
    case Home => "home"
    case Last => "last"
    case Custom =>
      var loc := Trim(custom);
      startUri(Login.GetSim(loc), Login.GetX(loc), Login.GetY(loc), Login.GetZ(loc))
  }

  /** A custom location written as "sim/x/y/z" reaches the URI builder as
      exactly those four values. */
  lemma CustomStartParsesLocation(sim: string, x: int, y: int, z: int, startUri: (string, int, int, int) -> string)
    requires '/' !in sim && (sim == [] || !IsWhiteSpace(sim[0]))
    requires Login.MinInt32 <= x <= Login.MaxInt32 && Login.MinInt32 <= y <= Login.MaxInt32
    requires Login.MinInt32 <= z <= Login.MaxInt32
    ensures StartString(Login.Custom, Login.FormatLocation(sim, x, y, z), startUri) == startUri(sim, x, y, z)
  {
    var loc := Login.FormatLocation(sim, x, y, z);
    assert loc == sim + "/" + Login.ShowInt(x) + "/" + Login.ShowInt(y) + "/" + Login.ShowInt(z);
    assert loc[|loc| - 1] == Login.ShowInt(z)[|Login.ShowInt(z)| - 1];
    assert sim == [] ==> loc[0] == '/';
    assert sim != [] ==> loc[0] == sim[0];
    TrimNoOp(loc);
    Login.ParseFormattedLocation(sim, x, y, z);
  }

  // ---------------------------------------------------------------------
  // BeginLogin

  /** OpenMetaverse's login states. */
  datatype Status = None | Failed | ConnectingToLogin | ReadingResponse | ConnectingToSim | Redirecting | Success

  /** A login progress report: status, message and failure reason. */
  datatype LoginProgress = LoginProgress(status: Status, message: string, failReason: string)

  const AppName: string := "Radunity"
  const AppVersion: string := "Radunity 1.0.0"
  const LoggingIn: LoginProgress := LoginProgress(None, "Logging in...", "")
  const BlankFields: LoginProgress := LoginProgress(Failed, "One or more fields are blank.", "")

  /** The parameters handed to the network login. */
  datatype LoginParams = LoginParams(firstName: string, lastName: string, password: PasswordChoice,
                                     channel: string, version: string, start: string, agreeToTos: bool,
                                     uri: string, lastExecEvent: Login.LastExecStatus)

  /** What one BeginLogin call leaves: the options it built, whether it
      switched on multiple simulators, the final login status and the
      request it issued, if any. */
  datatype LoginAttempt = LoginAttempt(options: Login.LoginOptions, setsMultipleSims: bool,
                                       status: LoginProgress, request: Wrappers.Option<LoginParams>)

  /** The options record BeginLogin fills in. */
  function OptionsFor(username: string, password: string, grid: Login.Grid): (o: Login.LoginOptions)
    ensures o.firstName.Some? && o.lastName.Some? && o.password == Wrappers.Some(password)
    ensures Names(o.firstName.value, o.lastName.value) == NormaliseName(username)
    ensures o.channel == AppName && o.version == AppVersion && o.startLocation == Login.Last
    ensures o.grid == Wrappers.Some(grid) && o.lastExecEvent == Login.Normal
  {
    var names := NormaliseName(username);
    Login.NewLoginOptions().(firstName := Wrappers.Some(names.first), lastName := Wrappers.Some(names.last),
                             password := Wrappers.Some(password), channel := AppName, version := AppVersion,
                             startLocation := Login.Last, grid := Wrappers.Some(grid), lastExecEvent := Login.Normal)
  }

  /** BeginLogin with the login screen's user name and password and the
      chosen grid. `startUri` is the grid's start-URI builder. */
  function BeginLogin(username: string, password: string, grid: Login.Grid,
                      startUri: (string, int, int, int) -> string): (a: LoginAttempt)
    ensures a.options == OptionsFor(username, password, grid)
    ensures a.setsMultipleSims <==> grid.platform != "SecondLife"
    ensures a.request.None? <==>
              Login.IsNullOrEmpty(a.options.firstName) || Login.IsNullOrEmpty(a.options.lastName) || password == ""
    ensures a.request.None? ==> a.status == BlankFields
    ensures a.request.Some? ==> a.status == LoggingIn
    ensures a.request.Some? ==>
              var o := a.options;
              a.request.value == LoginParams(o.firstName.value, o.lastName.value, ChoosePassword(password),
                                             AppName, AppVersion, "last", true, grid.loginUri, Login.Normal)
  {
    var o := OptionsFor(username, password, grid);
    var multi := grid.platform != "SecondLife";
    if Login.IsNullOrEmpty(o.firstName) || Login.IsNullOrEmpty(o.lastName) || Login.IsNullOrEmpty(o.password) then
      LoginAttempt(o, multi, BlankFields, Wrappers.None)
    else
      var start := StartString(o.startLocation, o.startLocationCustom, startUri);
      var params := LoginParams(o.firstName.value, o.lastName.value, ChoosePassword(o.password.value),
                                o.channel, o.version, start, true, grid.loginUri, o.lastExecEvent);
      LoginAttempt(o, multi, LoggingIn, Wrappers.Some(params))
  }

  /** The login is refused exactly when the password is empty, the trimmed
      user name is empty, or it splits into two pieces one of which is
      empty (a leading or trailing '.'); a one-piece or many-piece name is
      completed with "Resident" and never refused for the name. */
  lemma {:induction false} RefusedExactly(username: string, password: string, grid: Login.Grid,
                                          startUri: (string, int, int, int) -> string)
    ensures var parts := SplitNameRuns(Trim(username));
            BeginLogin(username, password, grid, startUri).request.None? <==>
              password == "" || Trim(username) == ""
              || (|parts| == 2 && (parts[0] == "" || parts[1] == ""))
  {
    var a := BeginLogin(username, password, grid, startUri);
    assert a.options.firstName.value == NormaliseName(username).first;
    assert a.options.lastName.value == NormaliseName(username).last;
    NameRefused(username);
  }

  /** The normalised name has an empty piece exactly when the trimmed user
      name is empty or splits into two pieces one of which is empty. */
  lemma NameRefused(username: string)
    ensures var parts := SplitNameRuns(Trim(username)); var n := NormaliseName(username);
            n.first == "" || n.last == "" <==>
              Trim(username) == "" || (|parts| == 2 && (parts[0] == "" || parts[1] == ""))
  {
    var parts := SplitNameRuns(Trim(username));
    if Trim(username) == "" {
      assert parts == [""];
    }
  }

  /** Every issued request asks for the last location, accepts the terms
      of service, and hashes no more than 16 UTF-16 units of the password. */
  lemma IssuedRequestShape(username: string, password: string, grid: Login.Grid,
                           startUri: (string, int, int, int) -> string)
    ensures var a := BeginLogin(username, password, grid, startUri);
            a.request.Some? ==>
              && a.request.value.start == "last" && a.request.value.agreeToTos
              && a.request.value.firstName != "" && a.request.value.lastName != ""
              && (a.request.value.password.Md5Of? ==> |a.request.value.password.input| <= HashedPrefixLength)
  {
  }
}
