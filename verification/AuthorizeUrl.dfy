// The authorize URL that carries a request through the login page: printing it
// with percent-encoding, and reading it back as a form-encoded query.
//
// A text is its UTF-8 bytes, one character per byte.

module AuthorizeUrl {
  import opened Common

  predicate IsText(s: string) {
    forall i :: 0 <= i < |s| ==> s[i] < '\U{100}'
  }

  type Text = s: string | IsText(s)

  // ---------------------------------------------------------------- encoding

  predicate IsUnreserved(c: char) {
    'A' <= c <= 'Z' || 'a' <= c <= 'z' || '0' <= c <= '9' || c == '-' || c == '_' || c == '.' || c == '~'
  }

  function HexDigit(n: nat): char
    requires n < 16
  {
    if n < 10 then '0' + n as char else 'A' + (n - 10) as char
  }

  function EncodeByte(c: char): string
    requires c < '\U{100}'
  {
    if IsUnreserved(c) then [c] else ['%', HexDigit(c as int / 16), HexDigit(c as int % 16)]
  }

  function Encoded(s: Text): string {
    if s == "" then "" else EncodeByte(s[0]) + Encoded(s[1..])
  }

  // Letters, digits and the four marks of section 2.3 of RFC 3986 stay; any
  // other byte becomes a percent sign and two upper-case hexadecimal digits.
  lemma EncodeByteExactly(c: char)
    requires c < '\U{100}'
    ensures EncodeByte(c) == [c] <==>
              'A' <= c <= 'Z' || 'a' <= c <= 'z' || '0' <= c <= '9' || c in {'-', '_', '.', '~'}
    ensures EncodeByte(c) != [c] ==>
              && EncodeByte(c) == ['%', "0123456789ABCDEF"[c as int / 16], "0123456789ABCDEF"[c as int % 16]]
  {
  }

  method Urlencode(s: Text) returns (out: string)
    ensures out == Encoded(s)
  {
    out := "";
    for i := 0 to |s|
      invariant out + Encoded(s[i..]) == Encoded(s)
    {
      var b := s[i];
      ghost var before := out;
      if IsUnreserved(b) {
        out := out + [b];
      } else {
        out := out + ['%', HexDigit(b as int / 16), HexDigit(b as int % 16)];
      }
      assert s[i..][1..] == s[i + 1..];
      Associate(before, EncodeByte(b), Encoded(s[i + 1..]));
    }
  }

  lemma Associate(a: string, b: string, c: string)
    ensures a + b + c == a + (b + c)
  {
  }

  // ---------------------------------------------------------------- decoding

  function HexValue(c: char): (n: Option<nat>)
    ensures n.Some? ==> n.value < 16
  {
    if '0' <= c <= '9' then Some(c as int - '0' as int)
    else if 'A' <= c <= 'F' then Some(c as int - 'A' as int + 10)
    else if 'a' <= c <= 'f' then Some(c as int - 'a' as int + 10)
    else None
  }

  // A plus is a space; a percent sign without two hex digits stands for itself.
  function Decoded(s: string): string {
    if s == "" then ""
    else if s[0] == '%' && |s| >= 3 && HexValue(s[1]).Some? && HexValue(s[2]).Some? then
      [(16 * HexValue(s[1]).value + HexValue(s[2]).value) as char] + Decoded(s[3..])
    else [if s[0] == '+' then ' ' else s[0]] + Decoded(s[1..])
  }

  // A text up to the first separator, and what follows it.
  function CutAt(s: string, separator: char): (string, string) {
    if s == "" then ("", "")
    else if s[0] == separator then ("", s[1..])
    else
      var (before, after) := CutAt(s[1..], separator);
      ([s[0]] + before, after)
  }

  type Pairs = seq<(string, string)>

  function DecodePieces(pieces: seq<string>): Pairs {
    if pieces == [] then []
    else if pieces[0] == "" then DecodePieces(pieces[1..])
    else
      var (name, value) := CutAt(pieces[0], '=');
      [(Decoded(name), Decoded(value))] + DecodePieces(pieces[1..])
  }

  function FormDecode(query: string): Pairs {
    DecodePieces(SplitAt(query, '&'))
  }

  // The query of a URL: behind the first question mark, before any fragment.
  function QueryOf(url: string): string {
    CutAt(CutAt(url, '#').0, '?').1
  }

  // Of two parameters with one name the later counts.
  function ToMap(pairs: Pairs): map<string, string> {
    if pairs == [] then map[]
    else ToMap(pairs[..|pairs| - 1])[pairs[|pairs| - 1].0 := pairs[|pairs| - 1].1]
  }

  // ------------------------------------------------------------- the round trip of one value

  lemma DecodesByte(c: char, rest: string)
    requires c < '\U{100}'
    ensures Decoded(EncodeByte(c) + rest) == [c] + Decoded(rest)
  {
    var s := EncodeByte(c) + rest;
    if IsUnreserved(c) {
      assert s[1..] == rest;
    } else {
      assert s[3..] == rest;
      HexRoundTrip(c as int / 16);
      HexRoundTrip(c as int % 16);
    }
  }

  lemma HexRoundTrip(n: nat)
    requires n < 16
    ensures HexValue(HexDigit(n)) == Some(n)
  {
  }

  lemma {:induction false} DecodeUndoesEncode(s: Text)
    ensures Decoded(Encoded(s)) == s
  {
    if s != "" {
      DecodesByte(s[0], Encoded(s[1..]));
      DecodeUndoesEncode(s[1..]);
    }
  }

  // Different texts never print the same.
  lemma EncodingIsInjective(s: Text, t: Text)
    ensures Encoded(s) == Encoded(t) <==> s == t
  {
    DecodeUndoesEncode(s);
    DecodeUndoesEncode(t);
  }

  predicate IsSafe(c: char) {
    IsUnreserved(c) || c == '%'
  }

  // Nothing is printed that means something in a query: no separator, no plus, no fragment.
  lemma {:induction false} EncodedIsSafe(s: Text)
    ensures forall i :: 0 <= i < |Encoded(s)| ==> IsSafe(Encoded(s)[i]) && Encoded(s)[i] !in {'&', '=', '+', '#', '?'}
  {
    if s != "" {
      EncodedIsSafe(s[1..]);
      EncodedByteIsSafe(s[0]);
    }
  }

  lemma EncodedByteIsSafe(c: char)
    requires c < '\U{100}'
    ensures forall i :: 0 <= i < |EncodeByte(c)| ==> IsSafe(EncodeByte(c)[i])
  {
  }

  predicate Lacks(s: string, c: char) {
    forall i :: 0 <= i < |s| ==> s[i] != c
  }

  predicate IsPlain(s: string) {
    forall i :: 0 <= i < |s| ==> IsUnreserved(s[i])
  }

  lemma {:induction false} PlainIsItself(s: string)
    requires IsPlain(s)
    ensures IsText(s) && Encoded(s) == s && Decoded(s) == s
  {
    if s != "" {
      PlainIsItself(s[1..]);
    }
  }

  // ---------------------------------------------------------------- a whole query

  function Printed(pair: (string, Text)): string {
    pair.0 + "=" + Encoded(pair.1)
  }

  function PrintQuery(pairs: seq<(string, Text)>): string {
    if pairs == [] then ""
    else if |pairs| == 1 then Printed(pairs[0])
    else Printed(pairs[0]) + "&" + PrintQuery(pairs[1..])
  }

  lemma {:induction false} CutAfterFirst(first: string, separator: char, rest: string)
    requires Lacks(first, separator)
    ensures CutAt(first + [separator] + rest, separator) == (first, rest)
  {
    if first == "" {
      assert first + [separator] + rest == [separator] + rest;
    } else {
      var s := first + [separator] + rest;
      CutAfterFirst(first[1..], separator, rest);
      assert s[0] == first[0] && s[1..] == first[1..] + [separator] + rest;
      assert first == [first[0]] + first[1..];
    }
  }

  lemma PairHasNoAmpersand(pair: (string, Text))
    requires IsPlain(pair.0)
    ensures Lacks(Printed(pair), '&')
  {
    EncodedIsSafe(pair.1);
  }

  lemma DecodesPair(pair: (string, Text))
    requires IsPlain(pair.0)
    ensures CutAt(Printed(pair), '=') == (pair.0, Encoded(pair.1))
    ensures Decoded(pair.0) == pair.0 && Decoded(Encoded(pair.1)) == pair.1
  {
    assert Lacks(pair.0, '=');
    CutAfterFirst(pair.0, '=', Encoded(pair.1));
    PlainIsItself(pair.0);
    DecodeUndoesEncode(pair.1);
  }

  lemma DecodesOnePiece(pair: (string, Text), pieces: seq<string>)
    requires IsPlain(pair.0) && pieces != [] && pieces[0] == Printed(pair)
    ensures DecodePieces(pieces) == [(pair.0, pair.1)] + DecodePieces(pieces[1..])
  {
    DecodesPair(pair);
    assert Printed(pair)[|pair.0|] == '=';
  }

  // Printing a list of parameters and decoding it gives the list, values and order alike.
  lemma {:induction false} QueryRoundTrip(pairs: seq<(string, Text)>)
    requires forall i :: 0 <= i < |pairs| ==> IsPlain(pairs[i].0)
    ensures FormDecode(PrintQuery(pairs)) == pairs
  {
    if pairs == [] {
      var pieces := SplitAt<char>("", '&');
      assert pieces == [""] && pieces[1..] == [];
      assert DecodePieces(pieces) == DecodePieces(pieces[1..]);
    } else {
      PairHasNoAmpersand(pairs[0]);
      SplitAfterFirst(Printed(pairs[0]), '&', PrintQuery(pairs[1..]));
      var pieces := SplitAt(PrintQuery(pairs), '&');
      DecodesOnePiece(pairs[0], pieces);
      if |pairs| == 1 {
        assert pieces[1..] == [] && pairs == [pairs[0]];
      } else {
        QueryRoundTrip(pairs[1..]);
        assert pieces[1..] == SplitAt(PrintQuery(pairs[1..]), '&');
        assert pairs == [pairs[0]] + pairs[1..];
      }
    }
  }

  lemma {:induction false} QueryIsSafe(pairs: seq<(string, Text)>)
    requires forall i :: 0 <= i < |pairs| ==> IsPlain(pairs[i].0)
    ensures Lacks(PrintQuery(pairs), '#')
    ensures IsText(PrintQuery(pairs))
  {
    if pairs != [] {
      EncodedIsSafe(pairs[0].1);
      QueryIsSafe(pairs[1..]);
    }
  }

  // ---------------------------------------------------------------- requests

  datatype AuthRequest = AuthRequest(
    clientId: Text, redirectUri: Text, responseType: Text, scope: Text, state: Option<Text>,
    codeChallenge: Text, codeChallengeMethod: Text, nonce: Option<Text>, prompt: Option<Text>)

  function Get(params: map<string, Text>, name: string, default: Text): Text {
    if name in params then params[name] else default
  }

  // An empty parameter counts as absent.
  function GetFilled(params: map<string, Text>, name: string): Option<Text> {
    if name in params && params[name] != "" then Some(params[name]) else None
  }

  function ParseAuthRequest(params: map<string, Text>): Option<AuthRequest> {
    if "client_id" !in params || "redirect_uri" !in params then None
    else Some(AuthRequest(
      params["client_id"], params["redirect_uri"], Get(params, "response_type", ""), Get(params, "scope", ""),
      GetFilled(params, "state"), Get(params, "code_challenge", ""), Get(params, "code_challenge_method", "S256"),
      GetFilled(params, "nonce"), GetFilled(params, "prompt")))
  }

  // Client and redirect URI are required; what else is missing reads as empty,
  // the challenge method as S256; state, nonce and prompt do not count when empty.
  lemma ParsesExactly(params: map<string, Text>)
    ensures ParseAuthRequest(params) ==
              if "client_id" in params && "redirect_uri" in params then
                Some(AuthRequest(params["client_id"], params["redirect_uri"],
                                 if "response_type" in params then params["response_type"] else "",
                                 if "scope" in params then params["scope"] else "",
                                 if "state" in params && params["state"] != "" then Some(params["state"]) else None,
                                 if "code_challenge" in params then params["code_challenge"] else "",
                                 if "code_challenge_method" in params then params["code_challenge_method"] else "S256",
                                 if "nonce" in params && params["nonce"] != "" then Some(params["nonce"]) else None,
                                 if "prompt" in params && params["prompt"] != "" then Some(params["prompt"]) else None))
              else None
  {
  }

  function Optional(name: string, value: Option<Text>): seq<(string, Text)> {
    if value.Some? then [(name, value.value)] else []
  }

  // The parameters of the URL, in order.
  function Params(req: AuthRequest): seq<(string, Text)> {
    [("client_id", req.clientId)] + [("redirect_uri", req.redirectUri)]
    + [("response_type", "code")] + [("scope", req.scope)]
    + Optional("state", req.state)
    + [("code_challenge", req.codeChallenge)] + [("code_challenge_method", req.codeChallengeMethod)]
    + Optional("nonce", req.nonce)
  }

  const AUTHORIZE := "/oidc/authorize?"

  function AuthorizeUrlOf(base: string, req: AuthRequest): string {
    base + "/oidc/authorize?" + PrintQuery(Params(req))
  }

  lemma {:induction false} PrintAppend(pairs: seq<(string, Text)>, last: (string, Text))
    requires pairs != []
    ensures PrintQuery(pairs + [last]) == PrintQuery(pairs) + "&" + Printed(last)
  {
    if |pairs| == 1 {
      assert (pairs + [last])[1..] == [last];
    } else {
      PrintAppend(pairs[1..], last);
      assert (pairs + [last])[1..] == pairs[1..] + [last];
    }
  }

  lemma PrintOptional(pairs: seq<(string, Text)>, name: string, value: Option<Text>)
    requires pairs != []
    ensures PrintQuery(pairs + Optional(name, value)) ==
              if value.Some? then PrintQuery(pairs) + "&" + Printed((name, value.value)) else PrintQuery(pairs)
  {
    if value.Some? {
      PrintAppend(pairs, (name, value.value));
    } else {
      assert pairs + [] == pairs;
    }
  }

  method Append(query: string, name: string, value: Text) returns (longer: string)
    ensures longer == query + "&" + Printed((name, value))
  {
    var encoded := Urlencode(value);
    longer := query + ("&" + name + "=" + encoded);
    assert "&" + name + "=" + encoded == "&" + Printed((name, value));
    Associate(query, "&", Printed((name, value)));
  }

  method AppendOptional(query: string, name: string, value: Option<Text>) returns (longer: string)
    ensures longer == if value.Some? then query + "&" + Printed((name, value.value)) else query
  {
    longer := query;
    if value.Some? {
      longer := Append(query, name, value.value);
    }
  }

  // The URL is built left to right; the prompt is left behind.
  method BuildAuthorizeUrl(base: string, req: AuthRequest) returns (url: string)
    ensures url == AuthorizeUrlOf(base, req)
  {
    var value := Urlencode(req.clientId);
    var query := "client_id" + "=" + value;
    query := Append(query, "redirect_uri", req.redirectUri);
    query := Append(query, "response_type", "code");
    query := Append(query, "scope", req.scope);
    query := AppendOptional(query, "state", req.state);
    query := Append(query, "code_challenge", req.codeChallenge);
    query := Append(query, "code_challenge_method", req.codeChallengeMethod);
    query := AppendOptional(query, "nonce", req.nonce);
    ParamsPrinted(req);
    url := base + AUTHORIZE + query;
  }

  lemma ParamsPrinted(req: AuthRequest)
    ensures PrintQuery(Params(req)) ==
              WithOptional(WithChallenge(WithOptional(FirstFour(req), "state", req.state), req), "nonce", req.nonce)
  {
    var four := [("client_id", req.clientId)] + [("redirect_uri", req.redirectUri)]
                + [("response_type", "code")] + [("scope", req.scope)];
    FirstFourPrinted(req);
    PrintOptional(four, "state", req.state);
    var five := four + Optional("state", req.state);
    PrintAppend(five, ("code_challenge", req.codeChallenge));
    var six := five + [("code_challenge", req.codeChallenge)];
    PrintAppend(six, ("code_challenge_method", req.codeChallengeMethod));
    PrintOptional(six + [("code_challenge_method", req.codeChallengeMethod)], "nonce", req.nonce);
  }

  lemma FirstFourPrinted(req: AuthRequest)
    ensures PrintQuery([("client_id", req.clientId)] + [("redirect_uri", req.redirectUri)]
                       + [("response_type", "code")] + [("scope", req.scope)]) == FirstFour(req)
  {
    var one: seq<(string, Text)> := [("client_id", req.clientId)];
    PrintAppend(one, ("redirect_uri", req.redirectUri));
    var two := one + [("redirect_uri", req.redirectUri)];
    PrintAppend(two, ("response_type", "code"));
    PrintAppend(two + [("response_type", "code")], ("scope", req.scope));
  }

  function FirstFour(req: AuthRequest): string {
    "client_id" + "=" + Encoded(req.clientId) + "&" + Printed(("redirect_uri", req.redirectUri))
    + "&" + Printed(("response_type", "code")) + "&" + Printed(("scope", req.scope))
  }

  function WithChallenge(query: string, req: AuthRequest): string {
    query + "&" + Printed(("code_challenge", req.codeChallenge))
    + "&" + Printed(("code_challenge_method", req.codeChallengeMethod))
  }

  function WithOptional(query: string, name: string, value: Option<Text>): string {
    if value.Some? then query + "&" + Printed((name, value.value)) else query
  }

  // ------------------------------------------------------------- the whole round trip

  // What reading the URL's query gives for any request: the same request, but
  // for a response type that is always `code`, emptied options and the prompt.
  function Reread(req: AuthRequest): AuthRequest {
    req.(responseType := "code",
         state := Filled(req.state),
         nonce := Filled(req.nonce),
         prompt := None)
  }

  lemma NamesArePlain()
    ensures IsPlain("client_id") && IsPlain("redirect_uri") && IsPlain("response_type") && IsPlain("scope")
    ensures IsPlain("state") && IsPlain("code_challenge") && IsPlain("code_challenge_method") && IsPlain("nonce")
  {
  }

  lemma ParamsArePlain(req: AuthRequest)
    ensures forall i :: 0 <= i < |Params(req)| ==> IsPlain(Params(req)[i].0)
  {
    NamesArePlain();
  }

  // Every name, as a number, to tell the names apart.
  function Rank(name: string): nat {
    if |name| == 5 then (if name[0] == 'n' then 500 else if name[1] == 't' then 501 else 502) else |name|
  }

  lemma Ranks()
    ensures Rank("client_id") == 9 && Rank("redirect_uri") == 12 && Rank("response_type") == 13 && Rank("scope") == 502
    ensures Rank("state") == 501 && Rank("code_challenge") == 14 && Rank("code_challenge_method") == 21
    ensures Rank("nonce") == 500 && Rank("prompt") == 6
  {
  }

  // Parameters that read as a given request.
  function ParamsFor(req: AuthRequest): map<string, Text> {
    var m := map["client_id" := req.clientId, "redirect_uri" := req.redirectUri, "response_type" := req.responseType,
                 "scope" := req.scope, "code_challenge" := req.codeChallenge,
                 "code_challenge_method" := req.codeChallengeMethod];
    var m := if req.state.Some? then m["state" := req.state.value] else m;
    var m := if req.nonce.Some? then m["nonce" := req.nonce.value] else m;
    if req.prompt.Some? then m["prompt" := req.prompt.value] else m
  }

  // An option with an empty text reads as none.
  function Filled(value: Option<Text>): Option<Text> {
    if value == Some("") then None else value
  }

  lemma ParamsForRead(req: AuthRequest)
    ensures ParseAuthRequest(ParamsFor(req)) == Some(req.(state := Filled(req.state), nonce := Filled(req.nonce), prompt := Filled(req.prompt)))
  {
    Ranks();
  }

  lemma MapOfMore(pairs: Pairs, name: string, value: string)
    ensures ToMap(pairs + [(name, value)]) == ToMap(pairs)[name := value]
  {
    assert (pairs + [(name, value)])[..|pairs|] == pairs;
  }

  lemma MapOfOptional(pairs: seq<(string, Text)>, name: string, value: Option<Text>)
    ensures ToMap(pairs + Optional(name, value)) == if value.Some? then ToMap(pairs)[name := value.value] else ToMap(pairs)
  {
    if value.Some? {
      MapOfMore(pairs, name, value.value);
    } else {
      assert pairs + [] == pairs;
    }
  }

  lemma MapOfFour(req: AuthRequest)
    ensures ToMap([("client_id", req.clientId)] + [("redirect_uri", req.redirectUri)]
                  + [("response_type", "code")] + [("scope", req.scope)])
         == map["client_id" := req.clientId, "redirect_uri" := req.redirectUri, "response_type" := "code", "scope" := req.scope]
  {
    var one: seq<(string, Text)> := [("client_id", req.clientId)];
    MapOfOne("client_id", req.clientId);
    MapOfMore(one, "redirect_uri", req.redirectUri);
    MapOfMore(one + [("redirect_uri", req.redirectUri)], "response_type", "code");
    MapOfMore(one + [("redirect_uri", req.redirectUri)] + [("response_type", "code")], "scope", req.scope);
  }

  // Each parameter occurs once, so the decoded map has exactly the printed values.
  lemma MapOfParams(req: AuthRequest)
    ensures ToMap(Params(req)) == ParamsFor(req.(responseType := "code", prompt := None))
  {
    var four := [("client_id", req.clientId)] + [("redirect_uri", req.redirectUri)]
                + [("response_type", "code")] + [("scope", req.scope)];
    MapOfFour(req);
    MapOfOptional(four, "state", req.state);
    var five := four + Optional("state", req.state);
    MapOfMore(five, "code_challenge", req.codeChallenge);
    var six := five + [("code_challenge", req.codeChallenge)];
    MapOfMore(six, "code_challenge_method", req.codeChallengeMethod);
    MapOfOptional(six + [("code_challenge_method", req.codeChallengeMethod)], "nonce", req.nonce);
    Ranks();
  }

  predicate IsBase(base: string) {
    Lacks(base, '?') && Lacks(base, '#')
  }

  lemma {:induction false} CutNothing(s: string, separator: char)
    requires Lacks(s, separator)
    ensures CutAt(s, separator) == (s, "")
  {
    if s != "" {
      CutNothing(s[1..], separator);
      assert s == [s[0]] + s[1..];
    }
  }

  lemma TextBehind(front: string, query: string)
    requires IsBase(front) && Lacks(query, '#')
    ensures QueryOf(front + ['?'] + query) == query
  {
    CutNothing(front + ['?'] + query, '#');
    CutAfterFirst(front, '?', query);
  }

  // A printed query is found again behind its URL's path.
  lemma QueryBehind(front: string, pairs: seq<(string, Text)>)
    requires IsBase(front) && forall i :: 0 <= i < |pairs| ==> IsPlain(pairs[i].0)
    ensures QueryOf(front + ['?'] + PrintQuery(pairs)) == PrintQuery(pairs)
  {
    QueryIsSafe(pairs);
    TextBehind(front, PrintQuery(pairs));
  }

  lemma QueryOfUrl(base: string, req: AuthRequest)
    requires IsBase(base)
    ensures QueryOf(AuthorizeUrlOf(base, req)) == PrintQuery(Params(req))
  {
    ParamsArePlain(req);
    var front := base + "/oidc/authorize";
    assert IsBase("/oidc/authorize");
    assert AuthorizeUrlOf(base, req) == front + ['?'] + PrintQuery(Params(req));
    QueryBehind(front, Params(req));
  }

  // What the server finds when the browser comes back to the URL.
  function Returned(url: string): (params: map<string, string>) {
    ToMap(FormDecode(QueryOf(url)))
  }

  lemma UrlDecodes(base: string, req: AuthRequest)
    requires IsBase(base)
    ensures Returned(AuthorizeUrlOf(base, req)) == ToMap(Params(req))
  {
    QueryOfUrl(base, req);
    ParamsArePlain(req);
    QueryRoundTrip(Params(req));
  }

  // Printing any request and reading the URL back.
  lemma RereadsUrl(base: string, req: AuthRequest)
    requires IsBase(base)
    ensures Returned(AuthorizeUrlOf(base, req)) == ParamsFor(req.(responseType := "code", prompt := None))
    ensures ParseAuthRequest(Returned(AuthorizeUrlOf(base, req))) == Some(Reread(req))
  {
    UrlDecodes(base, req);
    MapOfParams(req);
    ParamsForRead(req.(responseType := "code", prompt := None));
  }

  // Requests that reading some parameters can give.
  lemma ProducibleExactly(req: AuthRequest)
    ensures (exists params: map<string, Text> :: ParseAuthRequest(params) == Some(req)) <==>
              req.state != Some("") && req.nonce != Some("") && req.prompt != Some("")
  {
    if req.state != Some("") && req.nonce != Some("") && req.prompt != Some("") {
      ParamsForRead(req);
    }
  }

  // The round trip gives the request back, but for the prompt that is left
  // behind, for exactly the requests with response type `code` and no empty option.
  lemma UrlRoundTrip(base: string, req: AuthRequest)
    requires IsBase(base)
    ensures forall name :: name in Returned(AuthorizeUrlOf(base, req)) ==> IsText(Returned(AuthorizeUrlOf(base, req))[name])
    ensures ParseAuthRequest(Returned(AuthorizeUrlOf(base, req))) == Some(req.(prompt := None)) <==>
              req.responseType == "code" && req.state != Some("") && req.nonce != Some("")
  {
    RereadsUrl(base, req);
  }

  lemma UrlIsText(base: Text, req: AuthRequest)
    ensures IsText(AuthorizeUrlOf(base, req))
  {
    ParamsArePlain(req);
    QueryIsSafe(Params(req));
  }

  // The detour over the login page: the whole URL, printed once more as the
  // page's `continue` parameter, comes out of that parameter unchanged.
  lemma LoginDetour(page: string, base: Text, req: AuthRequest)
    requires IsBase(page)
    ensures IsText(AuthorizeUrlOf(base, req))
    ensures Returned(page + ['?'] + "continue=" + Encoded(AuthorizeUrlOf(base, req))) == map["continue" := AuthorizeUrlOf(base, req)]
  {
    UrlIsText(base, req);
    var url: Text := AuthorizeUrlOf(base, req);
    var pairs: seq<(string, Text)> := [("continue", url)];
    assert IsPlain("continue");
    QueryBehind(page, pairs);
    assert page + ['?'] + "continue=" + Encoded(url) == page + ['?'] + PrintQuery(pairs);
    QueryRoundTrip(pairs);
    MapOfOne("continue", url);
  }

  lemma MapOfOne(name: string, value: string)
    ensures ToMap([(name, value)]) == map[name := value]
  {
    assert [(name, value)][..0] == [];
  }
}
