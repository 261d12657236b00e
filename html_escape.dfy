/** The `replaceAll` chain that ui.js, approve-forget.js and approve-register.js
    each use to escape text before it is placed in markup. The copies differ
    only in the entity written for an apostrophe ("&#039;" in ui.js, "&#39;" in
    the two approval pages), so that entity is a parameter here. */
module HtmlEscape {

  import Js

  const Amp := "&amp;"
  const Lt := "&lt;"
  const Gt := "&gt;"
  const Quot := "&quot;"

  /** The two apostrophe entities used by the source. */
  predicate IsAposEntity(apos: string) {
    apos == "&#39;" || apos == "&#039;"
  }

  /** `s.replaceAll(c, rep)` for a one-character pattern. */
  function ReplaceAll(s: string, c: char, rep: string): string {
    if s == [] then [] else (if s[0] == c then rep else [s[0]]) + ReplaceAll(s[1..], c, rep)
  }

  /** The escaping chain as written: '&' first, then '<', '>', '"' and '\''. */
  function EscapeChain(s: string, apos: string): string {
    ReplaceAll(ReplaceAll(ReplaceAll(ReplaceAll(ReplaceAll(s, '&', Amp), '<', Lt), '>', Gt), '"', Quot), '\'', apos)
  }

  /** The entity for one character: each special character becomes exactly
      one entity, every other character stays as it is. */
  function EscapeChar(c: char, apos: string): string {
    if c == '&' then Amp
    else if c == '<' then Lt
    else if c == '>' then Gt
    else if c == '"' then Quot
    else if c == '\'' then apos
    else [c]
  }

  /** Reference definition: escape character by character. */
  function EscapeEach(s: string, apos: string): string {
    if s == [] then [] else EscapeChar(s[0], apos) + EscapeEach(s[1..], apos)
  }

  /** No '<', '>', '"' or '\'' survives unescaped. */
  predicate NoRawMarkup(t: string) {
    forall i :: 0 <= i < |t| ==> t[i] != '<' && t[i] != '>' && t[i] != '"' && t[i] != '\''
  }

  /** Decoding of the five entities, the inverse of escaping. */
  function Unescape(t: string, apos: string): string
    requires IsAposEntity(apos)
  {
    if t == [] then []
    else if Js.StartsWith(t, Amp) then "&" + Unescape(t[|Amp|..], apos)
    else if Js.StartsWith(t, Lt) then "<" + Unescape(t[|Lt|..], apos)
    else if Js.StartsWith(t, Gt) then ">" + Unescape(t[|Gt|..], apos)
    else if Js.StartsWith(t, Quot) then "\"" + Unescape(t[|Quot|..], apos)
    else if Js.StartsWith(t, apos) then "'" + Unescape(t[|apos|..], apos)
    else [t[0]] + Unescape(t[1..], apos)
  }

  lemma {:induction false} ReplaceAllConcat(a: string, b: string, c: char, rep: string)
    ensures ReplaceAll(a + b, c, rep) == ReplaceAll(a, c, rep) + ReplaceAll(b, c, rep)
  {
    if a != [] {
      assert (a + b)[1..] == a[1..] + b;
      ReplaceAllConcat(a[1..], b, c, rep);
    } else {
      assert a + b == b;
    }
  }

  lemma {:induction false} EscapeChainConcat(a: string, b: string, apos: string)
    ensures EscapeChain(a + b, apos) == EscapeChain(a, apos) + EscapeChain(b, apos)
  {
    var a1, b1 := ReplaceAll(a, '&', Amp), ReplaceAll(b, '&', Amp);
    ReplaceAllConcat(a, b, '&', Amp);
    var a2, b2 := ReplaceAll(a1, '<', Lt), ReplaceAll(b1, '<', Lt);
    ReplaceAllConcat(a1, b1, '<', Lt);
    var a3, b3 := ReplaceAll(a2, '>', Gt), ReplaceAll(b2, '>', Gt);
    ReplaceAllConcat(a2, b2, '>', Gt);
    var a4, b4 := ReplaceAll(a3, '"', Quot), ReplaceAll(b3, '"', Quot);
    ReplaceAllConcat(a3, b3, '"', Quot);
    ReplaceAllConcat(a4, b4, '\'', apos);
  }

  lemma {:induction false} ReplaceAllAbsent(s: string, c: char, rep: string)
    requires c !in s
    ensures ReplaceAll(s, c, rep) == s
  {
    if s != [] {
      assert c !in s[1..];
      ReplaceAllAbsent(s[1..], c, rep);
    }
  }

  lemma ReplaceAllSingle(c: char, d: char, rep: string)
    ensures ReplaceAll([c], d, rep) == if c == d then rep else [c]
  {
    assert [c][1..] == [];
  }

  /** Steps two to five of the chain. */
  function ChainAfterAmp(t: string, apos: string): string {
    ReplaceAll(ReplaceAll(ReplaceAll(ReplaceAll(t, '<', Lt), '>', Gt), '"', Quot), '\'', apos)
  }

  lemma ChainAfterAmpOfPlain(c: char, apos: string)
    requires IsAposEntity(apos) && c != '<'
    ensures ChainAfterAmp([c], apos) == if c == '&' then [c] else EscapeChar(c, apos)
  {
    ReplaceAllSingle(c, '<', Lt);
    ReplaceAllSingle(c, '>', Gt);
    if c != '>' {
      ReplaceAllSingle(c, '"', Quot);
      if c != '"' {
        ReplaceAllSingle(c, '\'', apos);
      } else {
        ReplaceAllAbsent(Quot, '\'', apos);
      }
    } else {
      ReplaceAllAbsent(Gt, '"', Quot);
      ReplaceAllAbsent(Gt, '\'', apos);
    }
  }

  lemma ChainAfterAmpOfLt(apos: string)
    requires IsAposEntity(apos)
    ensures ChainAfterAmp("<", apos) == Lt
  {
    ReplaceAllSingle('<', '<', Lt);
    TailIdle(Lt, apos);
  }

  lemma TailIdle(t: string, apos: string)
    requires '>' !in t && '"' !in t && '\'' !in t
    ensures ReplaceAll(ReplaceAll(ReplaceAll(t, '>', Gt), '"', Quot), '\'', apos) == t
  {
    ReplaceAllAbsent(t, '>', Gt);
    ReplaceAllAbsent(t, '"', Quot);
    ReplaceAllAbsent(t, '\'', apos);
  }

  lemma ChainAfterAmpOfAmp(apos: string)
    requires IsAposEntity(apos)
    ensures ChainAfterAmp(Amp, apos) == Amp
  {
    ReplaceAllAbsent(Amp, '<', Lt);
    TailIdle(Amp, apos);
  }

  lemma EscapeChainChar(c: char, apos: string)
    requires IsAposEntity(apos)
    ensures EscapeChain([c], apos) == EscapeChar(c, apos)
  {
    ReplaceAllSingle(c, '&', Amp);
    if c == '&' {
      ChainAfterAmpOfAmp(apos);
    } else if c == '<' {
      ChainAfterAmpOfLt(apos);
    } else {
      ChainAfterAmpOfPlain(c, apos);
    }
  }

  /** The chain, applied to the whole string, escapes character by character:
      replacing '&' first means no later step rewrites an entity an earlier
      step produced, and each special character yields exactly one entity. */
  lemma {:induction false} EscapeChainIsCharwise(s: string, apos: string)
    requires IsAposEntity(apos)
    ensures EscapeChain(s, apos) == EscapeEach(s, apos)
  {
    if s != [] {
      assert s == [s[0]] + s[1..];
      EscapeChainConcat([s[0]], s[1..], apos);
      EscapeChainChar(s[0], apos);
      EscapeChainIsCharwise(s[1..], apos);
    }
  }

  /** Escaped text holds no raw markup character. */
  lemma {:induction false} EscapeEachNoRawMarkup(s: string, apos: string)
    requires IsAposEntity(apos)
    ensures NoRawMarkup(EscapeEach(s, apos))
  {
    if s != [] {
      EscapeEachNoRawMarkup(s[1..], apos);
      var head, tail := EscapeChar(s[0], apos), EscapeEach(s[1..], apos);
      assert NoRawMarkup(head);
      assert EscapeEach(s, apos) == head + tail;
      forall i | 0 <= i < |head + tail|
        ensures (head + tail)[i] != '<' && (head + tail)[i] != '>'
             && (head + tail)[i] != '"' && (head + tail)[i] != '\''
      {
        if i >= |head| {
          assert (head + tail)[i] == tail[i - |head|];
        }
      }
    }
  }

  lemma UnescapeStep(c: char, rest: string, apos: string)
    requires IsAposEntity(apos)
    ensures Unescape(EscapeChar(c, apos) + rest, apos) == [c] + Unescape(rest, apos)
  {
    var e := EscapeChar(c, apos);
    var t := e + rest;
    assert t[..|e|] == e;
    if c == '&' {
      assert t[|Amp|..] == rest;
    } else if c == '<' {
      assert !Js.StartsWith(t, Amp) by { assert t[1] == 'l'; }
      assert t[|Lt|..] == rest;
    } else if c == '>' {
      assert !Js.StartsWith(t, Amp) by { assert t[1] == 'g'; }
      assert !Js.StartsWith(t, Lt) by { assert t[1] == 'g'; }
      assert t[|Gt|..] == rest;
    } else if c == '"' {
      assert !Js.StartsWith(t, Amp) by { assert t[1] == 'q'; }
      assert !Js.StartsWith(t, Lt) by { assert t[1] == 'q'; }
      assert !Js.StartsWith(t, Gt) by { assert t[1] == 'q'; }
      assert t[|Quot|..] == rest;
    } else if c == '\'' {
      assert !Js.StartsWith(t, Amp) by { assert t[1] == '#'; }
      assert !Js.StartsWith(t, Lt) by { assert t[1] == '#'; }
      assert !Js.StartsWith(t, Gt) by { assert t[1] == '#'; }
      assert !Js.StartsWith(t, Quot) by { assert t[1] == '#'; }
      assert t[|apos|..] == rest;
    } else {
      assert t[0] == c && c != '&';
      assert !Js.StartsWith(t, Amp) && !Js.StartsWith(t, Lt) && !Js.StartsWith(t, Gt);
      assert !Js.StartsWith(t, Quot) && !Js.StartsWith(t, apos);
      assert t[1..] == rest;
    }
  }

  /** Decoding the escaped text gives back the original. */
  lemma {:induction false} UnescapeEscapeEach(s: string, apos: string)
    requires IsAposEntity(apos)
    ensures Unescape(EscapeEach(s, apos), apos) == s
  {
    if s != [] {
      UnescapeStep(s[0], EscapeEach(s[1..], apos), apos);
      UnescapeEscapeEach(s[1..], apos);
    }
  }

  /** The escaping chain with its guarantees: it is character-wise escaping,
      leaves no raw markup character and is undone by `Unescape`. */
  function Escape(s: string, apos: string): (r: string)
    requires IsAposEntity(apos)
    ensures r == EscapeEach(s, apos)
    ensures NoRawMarkup(r)
    ensures Unescape(r, apos) == s
  {
    EscapeChainIsCharwise(s, apos);
    EscapeEachNoRawMarkup(s, apos);
    UnescapeEscapeEach(s, apos);
    EscapeChain(s, apos)
  }
}
