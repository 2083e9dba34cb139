// OAuth scope strings: parsing a request, and the claim inside access tokens.

module Scopes {
  import opened Common

  const SUPPORTED_SCOPES: set<Scope> := {"openid", "profile", "email", "offline_access"}

  // The characters at which a scope parameter is split (the Unicode White_Space property).
  predicate IsWhitespace(c: char) {
    || '\U{9}' <= c <= '\U{D}' || c == ' ' || c == '\U{85}' || c == '\U{A0}' || c == '\U{1680}'
    || '\U{2000}' <= c <= '\U{200A}' || c == '\U{2028}' || c == '\U{2029}' || c == '\U{202F}'
    || c == '\U{205F}' || c == '\U{3000}'
  }

  // The first maximal run of characters that are not whitespace.
  function Word(text: string): (word: string)
    ensures |word| <= |text|
  {
    if text == "" || IsWhitespace(text[0]) then "" else [text[0]] + Word(text[1..])
  }

  function Words(text: string): seq<string>
    decreases |text|
  {
    if text == "" then []
    else if IsWhitespace(text[0]) then Words(text[1..])
    else [Word(text)] + Words(text[|Word(text)|..])
  }

  function OnlySupported(words: seq<string>): seq<Scope> {
    if words == [] then []
    else if words[0] in SUPPORTED_SCOPES then [words[0]] + OnlySupported(words[1..])
    else OnlySupported(words[1..])
  }

  // None when no supported scope is asked for.
  function ParseScopes(scope: string): Option<seq<Scope>> {
    var scopes := OnlySupported(Words(scope));
    if scopes == [] then None else Some(scopes)
  }

  // The `scope` claim of an access token.
  function JoinScopes(scopes: seq<Scope>): string {
    if scopes == [] then "" else if |scopes| == 1 then scopes[0] else scopes[0] + " " + JoinScopes(scopes[1..])
  }

  // How validation splits that claim: at every single space.
  function SplitAtSpaces(text: string): seq<string> {
    SplitAt(text, ' ')
  }

  // What a parsed request asks for.
  predicate AreScopes(scopes: seq<Scope>) {
    scopes != [] && forall scope :: scope in scopes ==> scope in SUPPORTED_SCOPES
  }

  predicate IsWord(word: string) {
    word != "" && forall i :: 0 <= i < |word| ==> !IsWhitespace(word[i])
  }

  // A parsed scope list is never empty and holds exactly the supported words of the request.
  lemma {:induction false} ParseKeepsSupportedWords(scope: string)
    ensures ParseScopes(scope).Some? ==> ParseScopes(scope).value != []
    ensures forall w: string :: (ParseScopes(scope).Some? && w in ParseScopes(scope).value) <==>
                                (w in Words(scope) && w in {"openid", "profile", "email", "offline_access"})
  {
    FilterKeepsMembers(Words(scope));
  }

  lemma ParsedAreScopes(scope: string)
    requires ParseScopes(scope).Some?
    ensures AreScopes(ParseScopes(scope).value)
  {
    ParseKeepsSupportedWords(scope);
  }

  lemma FilterKeepsMembers(words: seq<string>)
    ensures forall w: string :: w in OnlySupported(words) <==> w in words && w in SUPPORTED_SCOPES
  {
    if words != [] {
      FilterKeepsMembers(words[1..]);
      assert words == [words[0]] + words[1..];
    }
  }

  // Validation reads back from the claim the scopes the token was minted with.
  lemma {:induction false} SplitUndoesJoin(scopes: seq<Scope>)
    requires scopes != [] && forall s :: s in scopes ==> IsWord(s)
    ensures SplitAtSpaces(JoinScopes(scopes)) == scopes
  {
    assert IsWord(scopes[0]);
    assert forall i :: 0 <= i < |scopes[0]| ==> !IsWhitespace(scopes[0][i]);
    SplitAfterFirst(scopes[0], ' ', "");
    if |scopes| > 1 {
      SplitAfterFirst(scopes[0], ' ', JoinScopes(scopes[1..]));
      SplitUndoesJoin(scopes[1..]);
    }
  }

  // Leading whitespace of any kind and length does not count.
  lemma {:induction false} WordsSkipWhitespace(gap: string, rest: string)
    requires forall i :: 0 <= i < |gap| ==> IsWhitespace(gap[i])
    ensures Words(gap + rest) == Words(rest)
  {
    if gap == "" {
      assert gap + rest == rest;
    } else {
      WordsSkipWhitespace(gap[1..], rest);
      assert (gap + rest)[1..] == gap[1..] + rest;
    }
  }

  // A word ends at the next whitespace character, or with the text.
  lemma {:induction false} WordsTakeWord(word: string, rest: string)
    requires IsWord(word) && (rest != "" ==> IsWhitespace(rest[0]))
    ensures Words(word + rest) == [word] + Words(rest)
  {
    WordOf(word, rest);
    assert (word + rest)[|word|..] == rest;
  }

  lemma WordsAfterWord(word: string, rest: string)
    requires IsWord(word)
    ensures Words(word) == [word] && Words(word + " " + rest) == [word] + Words(rest)
  {
    WordsTakeWord(word, "");
    assert word + "" == word && Words("") == [];
    WordsTakeWord(word, " " + rest);
    WordsSkipWhitespace(" ", rest);
    assert word + " " + rest == word + (" " + rest);
  }

  lemma {:induction false} WordOf(word: string, rest: string)
    requires forall i :: 0 <= i < |word| ==> !IsWhitespace(word[i])
    requires rest != "" ==> IsWhitespace(rest[0])
    ensures Word(word + rest) == word
  {
    if word == "" {
      assert word + rest == rest;
    } else {
      WordOf(word[1..], rest);
      assert (word + rest)[1..] == word[1..] + rest;
    }
  }

  lemma SupportedAreWords(scope: Scope)
    requires scope in SUPPORTED_SCOPES
    ensures IsWord(scope)
  {
    assert forall i :: 0 <= i < |"openid"| ==> !IsWhitespace("openid"[i]);
    assert forall i :: 0 <= i < |"profile"| ==> !IsWhitespace("profile"[i]);
    assert forall i :: 0 <= i < |"email"| ==> !IsWhitespace("email"[i]);
    assert forall i :: 0 <= i < |"offline_access"| ==> !IsWhitespace("offline_access"[i]);
  }

  // Asking for a list of supported scopes gets exactly that list, in order.
  lemma {:induction false} ParseUndoesJoin(scopes: seq<Scope>)
    requires scopes != [] && forall s :: s in scopes ==> s in SUPPORTED_SCOPES
    ensures ParseScopes(JoinScopes(scopes)) == Some(scopes)
  {
    SupportedAreWords(scopes[0]);
    if |scopes| == 1 {
      WordsAfterWord(scopes[0], "");
      assert scopes == [scopes[0]] && OnlySupported(scopes[1..]) == [];
    } else {
      WordsAfterWord(scopes[0], JoinScopes(scopes[1..]));
      ParseUndoesJoin(scopes[1..]);
      var words := Words(JoinScopes(scopes));
      assert words == [scopes[0]] + Words(JoinScopes(scopes[1..]));
      assert words[1..] == Words(JoinScopes(scopes[1..]));
      assert OnlySupported(words) == [scopes[0]] + scopes[1..] == scopes;
    }
  }
}
