/** `generateCode` (src/app.tsx): highlight the source text, then wrap every newline in its own span. */
module Highlight {
  import opened Results

  /** The language sentinel that asks highlight.js to guess the grammar. */
  const AutoDetect: string := "Auto Detect"

  /** What each newline of the highlighted markup is replaced with. */
  const NewlineSpan: string := "<span>\n</span>"

  /**
   * highlight.js, which is not modelled: `auto` is `highlightAuto(text).value`, `named` is
   * `highlight(text, {language}).value`, absent when no grammar has that name.
   */
  datatype Highlighter = Highlighter(auto: string -> string, named: (string, string) -> Option<string>)

  /** The number of newline characters in `s`. */
  function Newlines(s: string): nat
  {
    if s == [] then 0 else (if s[0] == '\n' then 1 else 0) + Newlines(s[1..])
  }

  /** `.replace(/\n/g, '<span>\n</span>')`. */
  function WrapNewlines(s: string): string
  {
    if s == [] then [] else (if s[0] == '\n' then NewlineSpan else [s[0]]) + WrapNewlines(s[1..])
  }

  /** Reads the wrapped markup back: every `NewlineSpan` becomes one newline again. */
  function UnwrapNewlines(t: string): string
  {
    if |t| >= |NewlineSpan| && t[..|NewlineSpan|] == NewlineSpan then "\n" + UnwrapNewlines(t[|NewlineSpan|..])
    else if t == [] then []
    else [t[0]] + UnwrapNewlines(t[1..])
  }

  lemma {:induction false} NewlinesAppend(a: string, b: string)
    ensures Newlines(a + b) == Newlines(a) + Newlines(b)
  {
    if a != [] {
      assert (a + b)[1..] == a[1..] + b;
      NewlinesAppend(a[1..], b);
    } else {
      assert a + b == b;
    }
  }

  lemma SpanHasOneNewline()
    ensures Newlines(NewlineSpan) == 1
  {
  }

  /** Each newline grows the markup by the thirteen characters of its span. */
  lemma {:induction false} WrapLength(s: string)
    ensures |WrapNewlines(s)| == |s| + 13 * Newlines(s)
  {
    if s != [] { WrapLength(s[1..]); }
  }

  /** Wrapping keeps exactly one newline per newline. */
  lemma {:induction false} WrapKeepsNewlines(s: string)
    ensures Newlines(WrapNewlines(s)) == Newlines(s)
  {
    if s != [] {
      var head := if s[0] == '\n' then NewlineSpan else [s[0]];
      NewlinesAppend(head, WrapNewlines(s[1..]));
      WrapKeepsNewlines(s[1..]);
      if s[0] == '\n' { SpanHasOneNewline(); }
    }
  }

  /** Wrapping leaves the markup unchanged exactly when it has no newline. */
  lemma {:induction false} WrapIsIdentityIffNoNewline(s: string)
    ensures WrapNewlines(s) == s <==> Newlines(s) == 0
  {
    WrapLength(s);
    if Newlines(s) == 0 { WrapUnchangedWithoutNewline(s); }
  }

  lemma {:induction false} WrapUnchangedWithoutNewline(s: string)
    requires Newlines(s) == 0
    ensures WrapNewlines(s) == s
  {
    if s != [] { WrapUnchangedWithoutNewline(s[1..]); }
  }

  /** In wrapped markup a newline always has the six characters of `<span>` before it. */
  lemma {:induction false} NewlineNotNearStart(s: string, k: nat)
    requires k < |WrapNewlines(s)| && WrapNewlines(s)[k] == '\n'
    ensures k >= 6
  {
    var rest := WrapNewlines(s[1..]);
    if s[0] == '\n' {
      assert WrapNewlines(s) == NewlineSpan + rest;
      if k < |NewlineSpan| {
        assert NewlineSpan[k] == '\n';
      }
    } else {
      assert WrapNewlines(s) == [s[0]] + rest;
      assert k != 0;
      assert rest[k - 1] == '\n';
      NewlineNotNearStart(s[1..], k - 1);
    }
  }

  /** Wrapping loses nothing: reading the spans back gives the highlighted markup again. */
  lemma {:induction false} UnwrapWrap(s: string)
    ensures UnwrapNewlines(WrapNewlines(s)) == s
  {
    if s != [] {
      var rest := WrapNewlines(s[1..]);
      var t := WrapNewlines(s);
      if s[0] == '\n' {
        assert t == NewlineSpan + rest;
        assert t[..|NewlineSpan|] == NewlineSpan && t[|NewlineSpan|..] == rest;
      } else {
        assert t == [s[0]] + rest;
        if |t| >= |NewlineSpan| && t[..|NewlineSpan|] == NewlineSpan {
          assert rest[5] == t[6] == NewlineSpan[6] == '\n';
          NewlineNotNearStart(s[1..], 5);
        }
        assert t[1..] == rest;
      }
      UnwrapWrap(s[1..]);
    }
  }

  /** The highlighted markup before newlines are wrapped: auto-detected or under the named grammar. */
  function Markup(h: Highlighter, sourceText: string, language: string): Option<string>
  {
    if language == AutoDetect then Some(h.auto(sourceText)) else h.named(sourceText, language)
  }

  /** `generateCode`: highlight, then wrap every newline of the markup in its own span. */
  function GenerateCode(h: Highlighter, sourceText: string, language: string): (r: Result<string>)
    ensures language == AutoDetect ==> r.Ok? && UnwrapNewlines(r.value) == h.auto(sourceText)
    ensures language != AutoDetect ==> (r.Ok? <==> h.named(sourceText, language).Some?)
    ensures language != AutoDetect && r.Ok? ==> UnwrapNewlines(r.value) == h.named(sourceText, language).value
    ensures r.Err? ==> r.error == UnknownLanguage(language)
    ensures r.Ok? ==> var m := Markup(h, sourceText, language).value;
      Newlines(r.value) == Newlines(m) && |r.value| == |m| + 13 * Newlines(m)
  {
    match Markup(h, sourceText, language)
    case None => Err(UnknownLanguage(language))
    case Some(m) =>
      UnwrapWrap(m); WrapKeepsNewlines(m); WrapLength(m);
      Ok(WrapNewlines(m))
  }
}
