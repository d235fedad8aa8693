/** JSON pointers (sections 3 and 4 of RFC 6901) as the injector writes and the API server
    reads them. The injector escapes slashes only. */
module Pointers {
  import opened Collections
  import opened Strings

  /** Slashes become `~1`; nothing else is escaped. */
  function Escape(token: string): string {
    if token == "" then ""
    else (if token[0] == '/' then "~1" else [token[0]]) + Escape(token[1..])
  }

  /** `~0` stands for a tilde and `~1` for a slash; a tilde before anything else is an error. */
  function Unescape(s: string): Option<string> {
    if s == "" then Some("")
    else if s[0] != '~' then Prepend(s[0], Unescape(s[1..]))
    else if |s| >= 2 && s[1] == '0' then Prepend('~', Unescape(s[2..]))
    else if |s| >= 2 && s[1] == '1' then Prepend('/', Unescape(s[2..]))
    else None
  }

  function Prepend(c: char, rest: Option<string>): Option<string> {
    if rest.Some? then Some([c] + rest.value) else None
  }

  lemma {:induction false} UnescapeShrinks(token: string)
    ensures Unescape(Escape(token)).Some? ==> |Unescape(Escape(token)).value| <= |token|
  {
    if token != "" {
      UnescapeShrinks(token[1..]);
      if token[0] == '~' && |token| >= 2 {
        UnescapeShrinks(token[2..]);
        assert Escape(token)[1..] == Escape(token[1..]);
        if token[1] != '/' {
          assert Escape(token)[2..] == Escape(token[2..]);
        }
      } else if token[0] == '/' {
        assert Escape(token)[2..] == Escape(token[1..]);
      } else {
        assert Escape(token)[1..] == Escape(token[1..]);
      }
    }
  }

  /** A token written by the injector is read back exactly when it contains no tilde. */
  lemma {:induction false} EscapeRoundTrip(token: string)
    ensures Unescape(Escape(token)) == Some(token) <==> '~' !in token
  {
    if token != "" {
      assert token == [token[0]] + token[1..];
      EscapeRoundTrip(token[1..]);
      if token[0] == '~' {
        assert Escape(token)[1..] == Escape(token[1..]);
        if |token| >= 2 && token[1] == '0' {
          assert Escape(token)[2..] == Escape(token[2..]);
          UnescapeShrinks(token[2..]);
        }
      } else if token[0] == '/' {
        assert Escape(token)[2..] == Escape(token[1..]);
      } else {
        assert Escape(token)[1..] == Escape(token[1..]);
      }
    }
  }

  lemma {:induction false} EscapedHasNoSlash(token: string)
    ensures '/' !in Escape(token)
  {
    if token != "" {
      EscapedHasNoSlash(token[1..]);
    }
  }

  function EscapeAll(tokens: seq<string>): seq<string> {
    seq(|tokens|, i requires 0 <= i < |tokens| => Escape(tokens[i]))
  }

  function UnescapeAll(parts: seq<string>): Option<seq<string>> {
    if parts == [] then Some([])
    else
      var first, rest := Unescape(parts[0]), UnescapeAll(parts[1..]);
      if first.Some? && rest.Some? then Some([first.value] + rest.value) else None
  }

  /** The pointer to the member reached by the tokens. */
  function Pointer(tokens: seq<string>): string {
    if tokens == [] then "" else "/" + Join(EscapeAll(tokens), '/')
  }

  /** The reference tokens of a pointer. */
  function Tokens(path: string): Option<seq<string>> {
    if path == "" then Some([])
    else if path[0] != '/' then None
    else UnescapeAll(Split(path[1..], '/'))
  }

  lemma {:induction false} EscapeAllRoundTrip(tokens: seq<string>)
    ensures UnescapeAll(EscapeAll(tokens)) == Some(tokens) <==> forall t :: t in tokens ==> '~' !in t
  {
    if tokens != [] {
      var rest := tokens[1..];
      assert tokens == [tokens[0]] + rest && EscapeAll(tokens)[1..] == EscapeAll(rest);
      EscapeRoundTrip(tokens[0]);
      EscapeAllRoundTrip(rest);
      var back := UnescapeAll(EscapeAll(tokens));
      assert back == Some(tokens) ==> back.value[0] == tokens[0] && back.value[1..] == rest;
    }
  }

  /** A path of tokens is read back exactly when none of them contains a tilde. */
  lemma PointerRoundTrip(tokens: seq<string>)
    ensures Tokens(Pointer(tokens)) == Some(tokens) <==> forall t :: t in tokens ==> '~' !in t
  {
    if tokens != [] {
      var parts := EscapeAll(tokens);
      forall i | 0 <= i < |parts| ensures '/' !in parts[i] {
        EscapedHasNoSlash(tokens[i]);
      }
      SplitJoin(parts, '/');
      assert Pointer(tokens)[1..] == Join(parts, '/');
      EscapeAllRoundTrip(tokens);
    }
  }

  /** The escaping of RFC 6901: `~0` for a tilde, `~1` for a slash. */
  function FullEscape(token: string): string {
    if token == "" then ""
    else (if token[0] == '~' then "~0" else if token[0] == '/' then "~1" else [token[0]]) + FullEscape(token[1..])
  }

  /** The reader undoes it for every token. */
  lemma {:induction false} FullEscapeRoundTrip(token: string)
    ensures Unescape(FullEscape(token)) == Some(token)
  {
    if token != "" {
      FullEscapeRoundTrip(token[1..]);
      var head := if token[0] == '~' then "~0" else if token[0] == '/' then "~1" else [token[0]];
      assert FullEscape(token)[|head|..] == FullEscape(token[1..]);
      assert token == [token[0]] + token[1..];
    }
  }
}
