/** Printing and parsing of IPFS URIs (lib/ipfs/gateway.ts). */
module IpfsUri {
  import opened Basics

  datatype IpfsError = InvalidCid | PathInvalid | InvalidScheme

  datatype ParsedIpfsUri = ParsedIpfsUri(cid: string, path: string)

  const SCHEME := "ipfs://"

  predicate IsBase58(c: char) {
    '1' <= c <= '9' || 'A' <= c <= 'H' || 'J' <= c <= 'N' || 'P' <= c <= 'Z' || 'a' <= c <= 'k' || 'm' <= c <= 'z'
  }

  predicate IsBase32(c: char) { 'a' <= c <= 'z' || '2' <= c <= '7' }

  predicate IsCidV0(v: string) {
    |v| == 46 && v[0] == 'Q' && v[1] == 'm' && forall i | 2 <= i < |v| :: IsBase58(v[i])
  }

  predicate IsCidV1(v: string) {
    |v| >= 21 && v[0] == 'b' && forall i | 1 <= i < |v| :: IsBase32(v[i])
  }

  predicate IsValidCid(v: string) { IsCidV0(v) || IsCidV1(v) }

  // ---------------------------------------------------------------- The string library

  function StripSlashes(s: string): string {
    if s != "" && s[0] == '/' then StripSlashes(s[1..]) else s
  }

  /** The characters the language's trim removes. */
  predicate IsSpace(c: char) {
    '\t' <= c <= '\r' || c == ' ' || c == '\U{A0}' || c == '\U{1680}' || '\U{2000}' <= c <= '\U{200A}' ||
    c == '\U{2028}' || c == '\U{2029}' || c == '\U{202F}' || c == '\U{205F}' || c == '\U{3000}' || c == '\U{FEFF}'
  }

  function TrimStart(s: string): string {
    if s != "" && IsSpace(s[0]) then TrimStart(s[1..]) else s
  }

  function TrimEnd(s: string): string {
    if s != "" && IsSpace(s[|s| - 1]) then TrimEnd(s[..|s| - 1]) else s
  }

  function Trim(s: string): string { TrimEnd(TrimStart(s)) }

  function Split(s: string): (parts: seq<string>)
    ensures parts != []
  {
    if s == "" then [""]
    else
      var rest := Split(s[1..]);
      if s[0] == '/' then [""] + rest else [[s[0]] + rest[0]] + rest[1..]
  }

  function Join(parts: seq<string>): string {
    if parts == [] then "" else if |parts| == 1 then parts[0] else parts[0] + "/" + Join(parts[1..])
  }

  // ---------------------------------------------------------------- Printer and parser

  predicate IsBadSegment(segment: string) { segment == "" || segment == "." || segment == ".." }

  function SanitizeIpfsPath(path: string): Result<string, IpfsError> {
    var normalized := Trim(StripSlashes(path));
    if normalized == "" then Ok("")
    else if exists i | 0 <= i < |Split(normalized)| :: IsBadSegment(Split(normalized)[i]) then Err(PathInvalid)
    else Ok(normalized)
  }

  function ToIpfsUri(cid: string, path: string): Result<string, IpfsError> {
    if !IsValidCid(cid) then Err(InvalidCid)
    else
      match SanitizeIpfsPath(path)
      case Err(e) => Err(e)
      case Ok(p) => Ok(if p != "" then SCHEME + cid + "/" + p else SCHEME + cid)
  }

  function ParseIpfsUri(uri: string): Result<ParsedIpfsUri, IpfsError> {
    if !(SCHEME <= uri) then Err(InvalidScheme)
    else
      var parts := Split(StripSlashes(uri[|SCHEME|..]));
      if !IsValidCid(parts[0]) then Err(InvalidCid)
      else
        match SanitizeIpfsPath(Join(parts[1..]))
        case Err(e) => Err(e)
        case Ok(p) => Ok(ParsedIpfsUri(parts[0], p))
  }

  // ---------------------------------------------------------------- Split and join

  lemma {:induction false} JoinSplit(s: string)
    ensures Join(Split(s)) == s
  {
    if s != "" {
      JoinSplit(s[1..]);
      var rest := Split(s[1..]);
      if s[0] == '/' {
        assert ([""] + rest)[1..] == rest;
        assert [s[0]] + s[1..] == s;
      } else {
        var parts := [[s[0]] + rest[0]] + rest[1..];
        assert parts[1..] == rest[1..];
        assert [s[0]] + s[1..] == s;
        if |rest| > 1 {
          assert parts[0] + "/" + Join(rest[1..]) == [s[0]] + (rest[0] + "/" + Join(rest[1..]));
        }
      }
    }
  }

  lemma {:induction false} SplitAtSlash(c: string, s: string)
    requires '/' !in c
    ensures Split(c) == [c] && Split(c + "/" + s) == [c] + Split(s)
  {
    if c == "" {
      assert (c + "/" + s)[1..] == s;
    } else {
      SplitAtSlash(c[1..], s);
      assert (c + "/" + s)[1..] == c[1..] + "/" + s;
      assert [c[0]] + c[1..] == c;
    }
  }

  lemma {:induction false} FirstPart(s: string)
    ensures '/' !in Split(s)[0]
    ensures s == if |Split(s)| == 1 then Split(s)[0] else Split(s)[0] + "/" + Join(Split(s)[1..])
  {
    JoinSplit(s);
    if s != "" {
      FirstPart(s[1..]);
    }
  }

  lemma CidHasNoSlash(cid: string)
    requires IsValidCid(cid)
    ensures '/' !in cid && cid != "" && cid[0] != '/'
  {
  }

  // ---------------------------------------------------------------- Sanitizing

  lemma {:induction false} TrimStartTrims(s: string)
    ensures TrimStart(s) != "" ==> !IsSpace(TrimStart(s)[0])
  {
    if s != "" {
      TrimStartTrims(s[1..]);
    }
  }

  lemma {:induction false} TrimEndTrims(s: string)
    ensures TrimEnd(s) <= s
    ensures TrimEnd(s) != "" ==> !IsSpace(TrimEnd(s)[|TrimEnd(s)| - 1])
  {
    if s != "" {
      TrimEndTrims(s[..|s| - 1]);
    }
  }

  lemma TrimTrims(s: string)
    ensures var t := Trim(s); t != "" ==> !IsSpace(t[0]) && !IsSpace(t[|t| - 1])
  {
    TrimStartTrims(s);
    TrimEndTrims(TrimStart(s));
  }

  lemma TrimmedStays(s: string)
    requires s != "" ==> !IsSpace(s[0]) && !IsSpace(s[|s| - 1])
    ensures Trim(s) == s
  {
  }

  lemma SplitStart(s: string)
    requires s != "" && s[0] == '/'
    ensures Split(s)[0] == ""
  {
  }

  /** A sanitized path is its own sanitized form. */
  lemma SanitizeIdempotent(path: string)
    ensures SanitizeIpfsPath(path).Ok? ==>
              SanitizeIpfsPath(SanitizeIpfsPath(path).value) == SanitizeIpfsPath(path)
  {
    var n := Trim(StripSlashes(path));
    TrimTrims(StripSlashes(path));
    if SanitizeIpfsPath(path).Ok? && n != "" {
      if n[0] == '/' {
        SplitStart(n);
        assert IsBadSegment(Split(n)[0]);
      }
      TrimmedStays(n);
    }
  }

  /** Any number of slashes may precede the identifier. */
  lemma {:induction false} StripLeading(slashes: string, s: string)
    requires forall i | 0 <= i < |slashes| :: slashes[i] == '/'
    requires s != "" ==> s[0] != '/'
    ensures StripSlashes(slashes + s) == s
  {
    if slashes == "" {
      assert slashes + s == s;
    } else {
      assert (slashes + s)[1..] == slashes[1..] + s;
      StripLeading(slashes[1..], s);
    }
  }

  lemma {:induction false} StrippedSlashes(s: string) returns (slashes: string)
    ensures s == slashes + StripSlashes(s) && forall i | 0 <= i < |slashes| :: slashes[i] == '/'
  {
    if s != "" && s[0] == '/' {
      var rest := StrippedSlashes(s[1..]);
      slashes := "/" + rest;
    } else {
      slashes := "";
    }
  }

  // ---------------------------------------------------------------- Round trips

  /** Everything the parser accepts is read this way. */
  lemma ParseOf(slashes: string, cid: string, path: Option<string>)
    requires IsValidCid(cid) && forall i | 0 <= i < |slashes| :: slashes[i] == '/'
    ensures ParseIpfsUri(SCHEME + slashes + cid + if path.Some? then "/" + path.value else "") ==
            match SanitizeIpfsPath(if path.Some? then path.value else "")
            case Err(e) => Err(e)
            case Ok(p) => Ok(ParsedIpfsUri(cid, p))
  {
    var tail := if path.Some? then "/" + path.value else "";
    var uri := SCHEME + slashes + cid + tail;
    CidHasNoSlash(cid);
    assert uri[|SCHEME|..] == slashes + (cid + tail);
    StripLeading(slashes, cid + tail);
    if path.Some? {
      SplitAtSlash(cid, path.value);
      assert cid + tail == cid + "/" + path.value;
      JoinSplit(path.value);
      assert ([cid] + Split(path.value))[1..] == Split(path.value);
    } else {
      SplitAtSlash(cid, "");
      assert cid + tail == cid;
    }
  }

  /** And nothing else is accepted. */
  lemma AcceptedShape(uri: string) returns (slashes: string, path: Option<string>)
    requires ParseIpfsUri(uri).Ok?
    ensures forall i | 0 <= i < |slashes| :: slashes[i] == '/'
    ensures var r := ParseIpfsUri(uri).value;
            IsValidCid(r.cid) && uri == SCHEME + slashes + r.cid + (if path.Some? then "/" + path.value else "") &&
            SanitizeIpfsPath(if path.Some? then path.value else "") == Ok(r.path)
  {
    var raw := StripSlashes(uri[|SCHEME|..]);
    slashes := StrippedSlashes(uri[|SCHEME|..]);
    FirstPart(raw);
    var cid := Split(raw)[0];
    path := if |Split(raw)| == 1 then None else Some(Join(Split(raw)[1..]));
    var tail := if path.Some? then "/" + path.value else "";
    assert raw == cid + tail by {
      Regroup(cid, "/", if path.Some? then path.value else "");
    }
    assert uri == SCHEME + (slashes + (cid + tail));
    Regroup(SCHEME, slashes, cid + tail);
    Regroup(SCHEME + slashes, cid, tail);
  }

  lemma Regroup(a: string, b: string, c: string)
    ensures a + b + c == a + (b + c)
  {
  }

  /** Parsing a printed URI gives back the identifier and the sanitized path. */
  lemma RoundTrip(cid: string, path: string)
    requires ToIpfsUri(cid, path).Ok?
    ensures SanitizeIpfsPath(path).Ok?
    ensures ParseIpfsUri(ToIpfsUri(cid, path).value) == Ok(ParsedIpfsUri(cid, SanitizeIpfsPath(path).value))
  {
    var p := SanitizeIpfsPath(path).value;
    SanitizeIdempotent(path);
    ParseOf("", cid, if p != "" then Some(p) else None);
    assert SCHEME + "" + cid + (if p != "" then "/" + p else "") == ToIpfsUri(cid, path).value;
  }

  /** Printing an accepted URI's parse succeeds, keeps the parse, and reaches a form that printing and
      parsing again does not change. */
  lemma PrintingIsCanonical(uri: string)
    requires ParseIpfsUri(uri).Ok?
    ensures var r := ParseIpfsUri(uri).value;
            ToIpfsUri(r.cid, r.path).Ok? &&
            var canonical := ToIpfsUri(r.cid, r.path).value;
            ParseIpfsUri(canonical) == Ok(r) && SCHEME <= canonical
  {
    var r := ParseIpfsUri(uri).value;
    var slashes, path := AcceptedShape(uri);
    SanitizeIdempotent(if path.Some? then path.value else "");
    RoundTrip(r.cid, r.path);
  }

  /** An accepted URI is canonical exactly when it has no extra slashes and its path, if it has one, is
      sanitized and not empty. */
  lemma CanonicalIff(slashes: string, cid: string, path: Option<string>)
    requires IsValidCid(cid) && forall i | 0 <= i < |slashes| :: slashes[i] == '/'
    requires SanitizeIpfsPath(if path.Some? then path.value else "").Ok?
    ensures var uri := SCHEME + slashes + cid + (if path.Some? then "/" + path.value else "");
            ParseIpfsUri(uri).Ok? &&
            var r := ParseIpfsUri(uri).value;
            ToIpfsUri(r.cid, r.path) == Ok(uri) <==>
            slashes == "" && (path.Some? ==> path.value != "" && SanitizeIpfsPath(path.value) == Ok(path.value))
  {
    var given := if path.Some? then path.value else "";
    var p := SanitizeIpfsPath(given).value;
    ParseOf(slashes, cid, path);
    SanitizeIdempotent(given);
    CidHasNoSlash(cid);
    PrintedForm(cid, p);
    FormsEqual(slashes, cid, if path.Some? then "/" + path.value else "", if p != "" then "/" + p else "");
    TailsEqual(path, p);
  }

  lemma PrintedForm(cid: string, p: string)
    requires IsValidCid(cid) && SanitizeIpfsPath(p) == Ok(p)
    ensures ToIpfsUri(cid, p) == Ok(SCHEME + cid + if p != "" then "/" + p else "")
  {
    if p != "" {
      assert SCHEME + cid + "/" + p == SCHEME + cid + ("/" + p);
    } else {
      assert SCHEME + cid + "" == SCHEME + cid;
    }
  }

  lemma FormsEqual(slashes: string, cid: string, s: string, t: string)
    requires cid != "" && cid[0] != '/' && forall i | 0 <= i < |slashes| :: slashes[i] == '/'
    ensures SCHEME + slashes + cid + s == SCHEME + cid + t <==> slashes == "" && s == t
  {
    var a, b := SCHEME + slashes + cid + s, SCHEME + cid + t;
    if slashes != "" {
      assert a[|SCHEME|] == '/' && b[|SCHEME|] != '/';
    } else {
      assert a[|SCHEME + cid|..] == s && b[|SCHEME + cid|..] == t;
      assert SCHEME + slashes + cid == SCHEME + cid;
    }
  }

  lemma TailsEqual(path: Option<string>, p: string)
    requires path == None ==> p == ""
    ensures (if path.Some? then "/" + path.value else "") == (if p != "" then "/" + p else "") <==>
            (path.Some? ==> p != "" && path.value == p)
  {
    assert path.Some? ==> ("/" + path.value)[1..] == path.value;
    assert ("/" + p)[1..] == p;
  }
}
