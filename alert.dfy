/**
 * The alert factory: the four alert types, the deduplication key and
 * `createAlert`, which builds a fresh alert value from its parameters.
 *
 * JavaScript strings are `seq<char>`. Whitespace is the ASCII part of `\s`
 * and lower-casing is the ASCII `A`-`Z` mapping; the Unicode and locale
 * behaviour of JavaScript's `toLocaleLowerCase` and `\s` is not part of
 * this model.
 */
module Alerts {
  import opened Options

  /** The `AlertType` constants. */
  datatype AlertType = Success | Error | Warning | Info

  /** The string each `AlertType` constant stands for. */
  function TypeName(t: AlertType): (name: string)
    ensures name != [] && ':' !in name
  {
    match t
    case Success => "success"
    case Error => "error"
    case Warning => "warning"
    case Info => "info"
  }

  lemma TypeNameInjective(t1: AlertType, t2: AlertType)
    ensures TypeName(t1) == TypeName(t2) <==> t1 == t2
  {
  }

  /** Identity of a user callback (a JavaScript function value). */
  type Callback = nat

  /**
   * The value an alert keeps in `expiresInMs`: `null`, `Infinity`, or a
   * whole number of milliseconds. An absent (`undefined`) value is `None`
   * of `Option<Expiry>`.
   */
  datatype Expiry = Null | Infinity | Ms(ms: nat)

  /** The parameters `createAlert` destructures; `kind` holds the JavaScript field `type`. */
  datatype CreateParams = CreateParams(
    kind: AlertType,
    message: string,
    title: Option<string>,
    expiresInMs: Option<Expiry>,
    onExpire: Option<Callback>,
    onNotify: Option<Callback>)

  /** An alert object; `kind` holds the JavaScript field `type`. */
  datatype Alert = Alert(
    key: string,
    kind: AlertType,
    title: Option<string>,
    message: string,
    createdAt: int,
    expiresInMs: Expiry,
    onNotify: Option<Callback>,
    onExpire: Option<Callback>,
    onDuplicated: Option<Callback>,
    isDuplicate: bool)

  // ---------------------------------------------------------------------
  // Normalisation of titles and messages
  // ---------------------------------------------------------------------

  predicate IsWhitespace(c: char) {
    c == ' ' || c == '\t' || c == '\n' || c == '\r' || c as int == 0x0B || c as int == 0x0C
  }

  predicate IsUpper(c: char) {
    'A' <= c <= 'Z'
  }

  function LowerChar(c: char): (d: char)
    ensures !IsUpper(d)
    ensures IsWhitespace(d) <==> IsWhitespace(c)
    ensures IsUpper(c) || d == c
  {
    if IsUpper(c) then (c as int + 32) as char else c
  }

  /** `s.replace(/\s/g, "")`: every whitespace character deleted, the rest kept in order. */
  function StripWhitespace(s: string): (r: string)
    ensures |r| <= |s|
    ensures forall i :: 0 <= i < |r| ==> !IsWhitespace(r[i])
    ensures (forall i :: 0 <= i < |s| ==> !IsWhitespace(s[i])) ==> r == s
  {
    if s == [] then []
    else (if IsWhitespace(s[0]) then [] else [s[0]]) + StripWhitespace(s[1..])
  }

  /** `toLocaleLowerCase`, restricted to ASCII letters. */
  function Lower(s: string): (r: string)
    ensures |r| == |s|
    ensures forall i :: 0 <= i < |s| ==> r[i] == LowerChar(s[i])
  {
    if s == [] then [] else [LowerChar(s[0])] + Lower(s[1..])
  }

  /** A string in normal form: no whitespace and no upper-case letter. */
  predicate Normal(s: string) {
    forall i :: 0 <= i < |s| ==> !IsWhitespace(s[i]) && !IsUpper(s[i])
  }

  lemma NormalAppend(a: string, b: string)
    requires Normal(a) && Normal(b)
    ensures Normal(a + b)
  {
    forall i | 0 <= i < |a + b|
      ensures !IsWhitespace((a + b)[i]) && !IsUpper((a + b)[i])
    {
      if i >= |a| {
        assert (a + b)[i] == b[i - |a|];
      }
    }
  }

  /** The normal form used in keys: whitespace removed, then lower-cased. */
  function Norm(s: string): (r: string)
    ensures |r| <= |s|
    ensures Normal(r)
  {
    Lower(StripWhitespace(s))
  }

  /** `title?.replace(/\s/g, "").toLocaleLowerCase() || ""`. */
  function TitleKey(title: Option<string>): (r: string)
    ensures title.None? ==> r == ""
    ensures Normal(r)
  {
    match title
    case None => ""
    case Some(t) => Norm(t)  // `|| ""` turns an empty result into "", which it already is
  }

  /** The deduplication key `${type}:${titleKey}:${messageKey}`. */
  function Key(kind: AlertType, title: Option<string>, message: string): (r: string)
    ensures |r| == |TypeName(kind)| + |TitleKey(title)| + |Norm(message)| + 2
    ensures r[..|TypeName(kind)|] == TypeName(kind) && r[|TypeName(kind)|] == ':'
    ensures Normal(r[|TypeName(kind)| + 1..])
  {
    var rest := TitleKey(title) + ":" + Norm(message);
    NormalAppend(TitleKey(title), ":");
    NormalAppend(TitleKey(title) + ":", Norm(message));
    var r := TypeName(kind) + ":" + rest;
    assert r[|TypeName(kind)| + 1..] == rest;
    r
  }

  /** `expiresInMs || null`: the falsy values `undefined`, `null` and `0` become `null`. */
  function NormaliseExpiry(e: Option<Expiry>): (r: Expiry)
    ensures r == Null <==> (e == None || e == Some(Null) || e == Some(Ms(0)))
    ensures r != Null ==> e == Some(r)
    ensures r != Ms(0)
  {
    match e
    case None => Null
    case Some(Ms(0)) => Null
    case Some(x) => x
  }

  /**
   * `createAlert`, with the clock reading `Date.now()` passed in as `now`.
   * The parameters carry no `onDuplicated`, so a fresh alert never has one.
   */
  function CreateAlert(p: CreateParams, now: int): (a: Alert)
    ensures a.key == Key(p.kind, p.title, p.message)
    ensures a.kind == p.kind && a.title == p.title && a.message == p.message
    ensures a.onNotify == p.onNotify && a.onExpire == p.onExpire
    ensures a.createdAt == now
    ensures a.expiresInMs == NormaliseExpiry(p.expiresInMs) && a.expiresInMs != Ms(0)
    ensures a.onDuplicated == None && !a.isDuplicate
  {
    Alert(
      key := Key(p.kind, p.title, p.message),
      kind := p.kind,
      title := p.title,
      message := p.message,
      createdAt := now,
      expiresInMs := NormaliseExpiry(p.expiresInMs),
      onNotify := p.onNotify,
      onExpire := p.onExpire,
      onDuplicated := None,
      isDuplicate := false)
  }

  // ---------------------------------------------------------------------
  // Properties of the key
  // ---------------------------------------------------------------------

  lemma {:induction false} StripWhitespaceAppend(a: string, b: string)
    ensures StripWhitespace(a + b) == StripWhitespace(a) + StripWhitespace(b)
  {
    if a != [] {
      var h := if IsWhitespace(a[0]) then [] else [a[0]];
      assert (a + b)[0] == a[0] && (a + b)[1..] == a[1..] + b;
      StripWhitespaceAppend(a[1..], b);
      calc {
        StripWhitespace(a + b);
        h + StripWhitespace(a[1..] + b);
        h + (StripWhitespace(a[1..]) + StripWhitespace(b));
        (h + StripWhitespace(a[1..])) + StripWhitespace(b);
        StripWhitespace(a) + StripWhitespace(b);
      }
    } else {
      assert a + b == b;
    }
  }

  lemma {:induction false} StripAllWhitespace(w: string)
    requires forall i :: 0 <= i < |w| ==> IsWhitespace(w[i])
    ensures StripWhitespace(w) == []
  {
    if w != [] {
      StripAllWhitespace(w[1..]);
    }
  }

  /** Inserting or removing whitespace anywhere leaves the normal form unchanged. */
  lemma NormIgnoresWhitespace(a: string, w: string, b: string)
    requires forall i :: 0 <= i < |w| ==> IsWhitespace(w[i])
    ensures Norm(a + w + b) == Norm(a + b)
  {
    StripWhitespaceAppend(a + w, b);
    StripWhitespaceAppend(a, w);
    StripWhitespaceAppend(a, b);
    StripAllWhitespace(w);
    assert StripWhitespace(a) + [] == StripWhitespace(a);
  }

  /** Strings that differ only by letter case have the same normal form. */
  lemma {:induction false} NormIgnoresCase(s: string, t: string)
    requires |s| == |t|
    requires forall i :: 0 <= i < |s| ==> LowerChar(s[i]) == LowerChar(t[i])
    ensures Norm(s) == Norm(t)
  {
    if s != [] {
      NormIgnoresCase(s[1..], t[1..]);
      assert IsWhitespace(s[0]) <==> IsWhitespace(t[0]) by {
        assert LowerChar(s[0]) == LowerChar(t[0]);
      }
      var hs, ht := if IsWhitespace(s[0]) then [] else [s[0]], if IsWhitespace(t[0]) then [] else [t[0]];
      assert StripWhitespace(s) == hs + StripWhitespace(s[1..]);
      assert StripWhitespace(t) == ht + StripWhitespace(t[1..]);
      LowerAppend(hs, StripWhitespace(s[1..]));
      LowerAppend(ht, StripWhitespace(t[1..]));
      assert Lower(hs) == Lower(ht);
    }
  }

  lemma LowerAppend(a: string, b: string)
    ensures Lower(a + b) == Lower(a) + Lower(b)
  {
  }

  /** A string already in normal form is its own normal form; so `Norm` is idempotent. */
  lemma NormOfNormal(s: string)
    requires Normal(s)
    ensures Norm(s) == s
  {
  }

  lemma NormIdempotent(s: string)
    ensures Norm(Norm(s)) == Norm(s)
  {
    NormOfNormal(Norm(s));
  }

  /** An absent, an empty and a whitespace-only title give the same key. */
  lemma BlankTitles(kind: AlertType, w: string, message: string)
    requires forall i :: 0 <= i < |w| ==> IsWhitespace(w[i])
    ensures Key(kind, Some(w), message) == Key(kind, None, message) == Key(kind, Some(""), message)
  {
    StripAllWhitespace(w);
  }

  /** Whitespace inserted anywhere in a title or a message does not change the key. */
  lemma KeyIgnoresWhitespace(kind: AlertType, a: string, w: string, b: string, c: string, v: string, d: string)
    requires forall i :: 0 <= i < |w| ==> IsWhitespace(w[i])
    requires forall i :: 0 <= i < |v| ==> IsWhitespace(v[i])
    ensures Key(kind, Some(a + w + b), c + v + d) == Key(kind, Some(a + b), c + d)
    ensures Key(kind, None, c + v + d) == Key(kind, None, c + d)
  {
    NormIgnoresWhitespace(a, w, b);
    NormIgnoresWhitespace(c, v, d);
  }

  /** Titles and messages that differ only by letter case give the same key. */
  lemma KeyIgnoresCase(kind: AlertType, t1: string, t2: string, m1: string, m2: string)
    requires |t1| == |t2| && forall i :: 0 <= i < |t1| ==> LowerChar(t1[i]) == LowerChar(t2[i])
    requires |m1| == |m2| && forall i :: 0 <= i < |m1| ==> LowerChar(m1[i]) == LowerChar(m2[i])
    ensures Key(kind, Some(t1), m1) == Key(kind, Some(t2), m2)
    ensures Key(kind, None, m1) == Key(kind, None, m2)
  {
    NormIgnoresCase(t1, t2);
    NormIgnoresCase(m1, m2);
  }

  /** The characters of `s` before its first ':' (all of `s` if it has none). */
  function PrefixBeforeColon(s: string): (r: string)
    ensures ':' !in r
    ensures |r| <= |s| && r == s[..|r|]
    ensures |r| < |s| ==> s[|r|] == ':'
  {
    if s == [] || s[0] == ':' then [] else [s[0]] + PrefixBeforeColon(s[1..])
  }

  lemma {:induction false} PrefixBeforeColonAppend(a: string, rest: string)
    requires ':' !in a
    ensures PrefixBeforeColon(a + ":" + rest) == a
  {
    if a != [] {
      assert a[0] in a;
      assert (a + ":" + rest)[1..] == a[1..] + ":" + rest;
      assert ':' !in a[1..] by {
        forall i | 0 <= i < |a[1..]| ensures a[1..][i] != ':' {
          assert a[1..][i] == a[i + 1];
        }
      }
      PrefixBeforeColonAppend(a[1..], rest);
    }
  }

  /** The part of a key before its first ':' is exactly the alert type. */
  lemma KeyPrefixIsType(kind: AlertType, title: Option<string>, message: string)
    ensures PrefixBeforeColon(Key(kind, title, message)) == TypeName(kind)
  {
    assert Key(kind, title, message) == TypeName(kind) + ":" + (TitleKey(title) + ":" + Norm(message));
    PrefixBeforeColonAppend(TypeName(kind), TitleKey(title) + ":" + Norm(message));
  }

  /** Alerts of different types never share a key. */
  lemma KeyDeterminesType(k1: AlertType, t1: Option<string>, m1: string,
                          k2: AlertType, t2: Option<string>, m2: string)
    requires Key(k1, t1, m1) == Key(k2, t2, m2)
    ensures k1 == k2
  {
    KeyPrefixIsType(k1, t1, m1);
    KeyPrefixIsType(k2, t2, m2);
    TypeNameInjective(k1, k2);
  }

  /** Within one type the key is not injective: a ':' in the title can move into the message. */
  lemma KeyCollision()
    ensures Key(Info, Some("a:b"), "c") == Key(Info, Some("a"), "b:c")
  {
  }
}
