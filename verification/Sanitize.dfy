/** fmtSanitize of common/sentry/sentry.go: a Go format string is rewritten into one that uses
    only %s and %%, with the arguments rendered beforehand. */
module Sanitize {
  import opened Options
  import opened Utf8
  import opened Texts

  /** An argument of Printf: a string, or a value only the formatter understands. */
  datatype Value = Raw(id: int) | Str(s: Text)

  /** How fmt.Sprintf renders one argument under one verb. */
  type Formatter = (int, Value) -> Text

  const PERCENT: byte := '%' as int
  const VERB_S: byte := 's' as int

  /** Under %s a string is its own rendering. */
  ghost predicate KeepsStrings(fmt: Formatter) {
    forall s: Text :: fmt(VERB_S, Str(s)) == s
  }

  predicate Supported(r: int) {
    r == 'q' as int || r == 'v' as int || r == 'd' as int || r == VERB_S
  }

  // ---------- fmt.Sprintf on the fragment at hand ----------

  function Before(text: Text, out: Option<Text>): Option<Text> {
    if out.None? then None else Some(text + out.value)
  }

  /** fmt.Sprintf, byte by byte; `pct` says that a percent sign is pending. None stands for what
      lies outside the fragment: another verb, a lone percent sign, a wrong number of arguments. */
  function Render(fmt: Formatter, msg: Text, args: seq<Value>, pct: bool): Option<Text>
    decreases |msg|
  {
    if msg == [] then if pct || args != [] then None else Some([])
    else if !pct && msg[0] == PERCENT then Render(fmt, msg[1..], args, true)
    else if !pct || msg[0] == PERCENT then Before([msg[0]], Render(fmt, msg[1..], args, false))
    else if Supported(msg[0]) && args != [] then
      Before(fmt(msg[0], args[0]), Render(fmt, msg[1..], args[1..], false))
    else None
  }

  // ---------- fmtSanitize ----------

  datatype Message = Message(text: Text, params: seq<Value>)

  function Prepend(text: Text, params: seq<Value>, m: Option<Message>): Option<Message> {
    if m.None? then None else Some(Message(text + m.value.text, params + m.value.params))
  }

  /** bytes.Buffer.WriteRune. */
  function WriteRune(r: int): Text {
    if IsScalar(r) then Encode(r) else Encode(RUNE_ERROR)
  }

  function Sanitized(fmt: Formatter, msg: Text, args: seq<Value>, pct: bool): Option<Message>
    decreases |msg|
  {
    if msg == [] then if pct || args != [] then None else Some(Message([], []))
    else
      var d := DecodeRune(msg);
      var rest := msg[d.n..];
      if !pct then Prepend(WriteRune(d.r), [], Sanitized(fmt, rest, args, d.r == PERCENT))
      else if Supported(d.r) then
        if args == [] then None
        else Prepend([VERB_S], [Str(fmt(d.r, args[0]))], Sanitized(fmt, rest, args[1..], false))
      else if d.r == PERCENT then Prepend([PERCENT], [], Sanitized(fmt, rest, args, false))
      else None
  }

  lemma PrependPrepend(t1: Text, p1: seq<Value>, t2: Text, p2: seq<Value>, m: Option<Message>)
    ensures Prepend(t1, p1, Prepend(t2, p2, m)) == Prepend(t1 + t2, p1 + p2, m)
  {
    if m.Some? {
      assert t1 + (t2 + m.value.text) == t1 + t2 + m.value.text;
      assert p1 + (p2 + m.value.params) == p1 + p2 + m.value.params;
    }
  }

  /** One rune of the loop: what it appends to the buffer and to the finished arguments. */
  lemma SanitizeRune(fmt: Formatter, text: Text, done: seq<Value>, msg: Text, args: seq<Value>, pct: bool)
    requires msg != []
    ensures var d := DecodeRune(msg);
      var rest := msg[d.n..];
      var whole := Prepend(text, done, Sanitized(fmt, msg, args, pct));
      && (!pct ==>
        whole == Prepend(text + WriteRune(d.r), done, Sanitized(fmt, rest, args, d.r == PERCENT)))
      && (pct && Supported(d.r) && args != [] ==>
        whole == Prepend(text + [VERB_S], done + [Str(fmt(d.r, args[0]))], Sanitized(fmt, rest, args[1..], false)))
      && (pct && d.r == PERCENT ==>
        whole == Prepend(text + [PERCENT], done, Sanitized(fmt, rest, args, false)))
      && (pct && (if Supported(d.r) then args == [] else d.r != PERCENT) ==> whole.None?)
  {
    var d := DecodeRune(msg);
    var rest := msg[d.n..];
    assert done + [] == done;
    if !pct {
      PrependPrepend(text, done, WriteRune(d.r), [], Sanitized(fmt, rest, args, d.r == PERCENT));
    } else if Supported(d.r) {
      if args != [] {
        PrependPrepend(text, done, [VERB_S], [Str(fmt(d.r, args[0]))], Sanitized(fmt, rest, args[1..], false));
      }
    } else if d.r == PERCENT {
      PrependPrepend(text, done, [PERCENT], [], Sanitized(fmt, rest, args, false));
    }
  }

  lemma Overwrite(newargs: seq<Value>, args: seq<Value>, k: nat, v: Value)
    requires k < |args| == |newargs| && newargs[k..] == args[k..]
    ensures newargs[k := v][..k + 1] == newargs[..k] + [v]
    ensures newargs[k := v][k + 1..] == args[k + 1..] == args[k..][1..]
    ensures args[k..][0] == args[k]
  {
    assert newargs[k + 1..] == newargs[k..][1..];
  }

  /** The loop has turned `msg[..i]` into `newmsg` and has rendered the arguments below `argidx`. */
  ghost predicate SoFar(fmt: Formatter, msg: Text, args: seq<Value>,
                        newmsg: Text, newargs: seq<Value>, argidx: int, i: int, lastpct: bool) {
    && 0 <= i <= |msg| && 0 <= argidx <= |args| == |newargs|
    && newargs[argidx..] == args[argidx..]
    && Sanitized(fmt, msg, args, false)
       == Prepend(newmsg, newargs[..argidx], Sanitized(fmt, msg[i..], args[argidx..], lastpct))
  }

  lemma PrependEmpty(m: Option<Message>)
    ensures Prepend([], [], m) == m
  {
    if m.Some? {
      assert [] + m.value.text == m.value.text && [] + m.value.params == m.value.params;
    }
  }

  lemma SoFarStart(fmt: Formatter, msg: Text, args: seq<Value>)
    ensures SoFar(fmt, msg, args, [], args, 0, 0, false)
  {
    assert msg[0..] == msg && args[0..] == args && args[..0] == [];
    PrependEmpty(Sanitized(fmt, msg, args, false));
  }

  lemma SoFarRune(fmt: Formatter, msg: Text, args: seq<Value>,
                  newmsg: Text, newargs: seq<Value>, argidx: nat, i: nat, lastpct: bool)
    requires SoFar(fmt, msg, args, newmsg, newargs, argidx, i, lastpct) && i < |msg|
    ensures var d := DecodeRune(msg[i..]);
      && (!lastpct ==> SoFar(fmt, msg, args, newmsg + WriteRune(d.r), newargs, argidx, i + d.n, d.r == PERCENT))
      && (lastpct && d.r == PERCENT ==> SoFar(fmt, msg, args, newmsg + [PERCENT], newargs, argidx, i + d.n, false))
      && (lastpct && (if Supported(d.r) then argidx == |args| else d.r != PERCENT) ==> Sanitized(fmt, msg, args, false).None?)
  {
    hide DecodeRune, Supported, WriteRune, Sanitized;
    var d := DecodeRune(msg[i..]);
    SanitizeRune(fmt, newmsg, newargs[..argidx], msg[i..], args[argidx..], lastpct);
    assert msg[i..][d.n..] == msg[i + d.n..];
  }

  lemma SoFarVerb(fmt: Formatter, msg: Text, args: seq<Value>,
                  newmsg: Text, newargs: seq<Value>, argidx: nat, i: nat)
    requires SoFar(fmt, msg, args, newmsg, newargs, argidx, i, true) && i < |msg| && Supported(DecodeRune(msg[i..]).r)
    requires argidx < |args|
    ensures var d := DecodeRune(msg[i..]);
      SoFar(fmt, msg, args, newmsg + [VERB_S], newargs[argidx := Str(fmt(d.r, args[argidx]))], argidx + 1, i + d.n, false)
  {
    hide DecodeRune, Supported, WriteRune, Sanitized, Prepend;
    var d := DecodeRune(msg[i..]);
    Overwrite(newargs, args, argidx, Str(fmt(d.r, args[argidx])));
    SanitizeRune(fmt, newmsg, newargs[..argidx], msg[i..], args[argidx..], true);
    assert msg[i..][d.n..] == msg[i + d.n..];
  }

  lemma SoFarEnd(fmt: Formatter, msg: Text, args: seq<Value>, newmsg: Text, newargs: seq<Value>, argidx: nat, lastpct: bool)
    requires SoFar(fmt, msg, args, newmsg, newargs, argidx, |msg|, lastpct)
    ensures Sanitized(fmt, msg, args, false)
      == if lastpct || argidx < |args| then None else Some(Message(newmsg, newargs))
  {
    assert msg[|msg|..] == [];
    assert newmsg + [] == newmsg;
    if argidx == |args| {
      assert newargs[..argidx] + [] == newargs;
    }
  }

  /** The loop of the source: one buffer, one copy of the arguments overwritten in place. */
  method FmtSanitize(fmt: Formatter, msg: Text, args: seq<Value>) returns (out: Option<Message>)
    ensures out == Sanitized(fmt, msg, args, false)
  {
    var newmsg: Text, newargs, argidx, lastpct, i := [], args, 0, false, 0;
    SoFarStart(fmt, msg, args);
    while i < |msg|
      invariant SoFar(fmt, msg, args, newmsg, newargs, argidx, i, lastpct)
    {
      var d := DecodeRune(msg[i..]);
      if lastpct {
        if Supported(d.r) {
          if argidx >= |args| {
            SoFarRune(fmt, msg, args, newmsg, newargs, argidx, i, lastpct);
            return None;
          }
          SoFarVerb(fmt, msg, args, newmsg, newargs, argidx, i);
          newargs := newargs[argidx := Str(fmt(d.r, args[argidx]))];
          newmsg := newmsg + [VERB_S];
          argidx := argidx + 1;
        } else {
          SoFarRune(fmt, msg, args, newmsg, newargs, argidx, i, lastpct);
          if d.r == PERCENT {
            newmsg := newmsg + [PERCENT];
          } else {
            return None;
          }
        }
        lastpct := false;
      } else {
        SoFarRune(fmt, msg, args, newmsg, newargs, argidx, i, lastpct);
        newmsg := newmsg + WriteRune(d.r);
        lastpct := d.r == PERCENT;
      }
      i := i + d.n;
    }
    SoFarEnd(fmt, msg, args, newmsg, newargs, argidx, lastpct);
    if lastpct || argidx < |args| {
      return None;
    }
    return Some(Message(newmsg, newargs));
  }

  // ---------- When the answer is nil ----------

  /** The number of verbs in a message whose every percent sign starts a supported verb or an escape. */
  function Verbs(msg: Text, pct: bool): Option<nat>
    decreases |msg|
  {
    if msg == [] then if pct then None else Some(0)
    else if !pct then Verbs(msg[1..], msg[0] == PERCENT)
    else if msg[0] == PERCENT then Verbs(msg[1..], false)
    else if Supported(msg[0]) then
      match Verbs(msg[1..], false) { case None => None case Some(n) => Some(n + 1) }
    else None
  }

  lemma AsciiRune(msg: Text)
    requires msg != []
    ensures msg[0] < 0x80 ==> DecodeRune(msg) == Decoded(msg[0], 1) && WriteRune(msg[0]) == [msg[0]]
    ensures msg[0] >= 0x80 ==> DecodeRune(msg).r >= 0x80
    ensures msg[0] >= 0x80 ==> forall k :: 0 <= k < DecodeRune(msg).n ==> msg[k] >= 0x80
    ensures msg[0] >= 0x80 ==> forall k :: 0 <= k < |WriteRune(DecodeRune(msg).r)| ==> WriteRune(DecodeRune(msg).r)[k] >= 0x80
  {
  }

  lemma {:induction false} VerbsLiteral(bytes: Text, x: Text)
    requires forall k :: 0 <= k < |bytes| ==> bytes[k] >= 0x80
    ensures Verbs(bytes + x, false) == Verbs(x, false)
  {
    if bytes == [] {
      assert bytes + x == x;
    } else {
      assert (bytes + x)[1..] == bytes[1..] + x;
      VerbsLiteral(bytes[1..], x);
    }
  }

  /** nil is returned exactly when a verb is unsupported, a lone percent sign ends the message, or
      the number of verbs is not the number of arguments. */
  lemma {:induction false} NilExactly(fmt: Formatter, msg: Text, args: seq<Value>, pct: bool)
    ensures Sanitized(fmt, msg, args, pct).Some? <==> Verbs(msg, pct) == Some(|args|)
    decreases |msg|
  {
    if msg != [] {
      AsciiRune(msg);
      var d := DecodeRune(msg);
      var rest := msg[d.n..];
      if !pct {
        NilExactly(fmt, rest, args, d.r == PERCENT);
        if msg[0] >= 0x80 {
          assert msg == msg[..d.n] + rest;
          VerbsLiteral(msg[..d.n], rest);
        }
      } else if Supported(d.r) {
        if args != [] {
          NilExactly(fmt, rest, args[1..], false);
        }
      } else if d.r == PERCENT {
        NilExactly(fmt, rest, args, false);
      }
    }
  }

  lemma LastByte(b: byte)
    ensures [b][DecodeRune([b]).n..] == []
    ensures DecodeRune([b]).r == if b < 128 then b else 65533
    ensures WriteRune(DecodeRune([b]).r) == if b < 128 then [b] else [239, 191, 189]
  {
  }

  lemma PrependToEnd(text: Text, params: seq<Value>, more: Text)
    ensures Prepend(text, params, Some(Message([], []))) == Some(Message(text, params))
    ensures Prepend(more, [], Some(Message(text, params))) == Some(Message(more + text, params))
  {
    assert text + [] == text && params + [] == params && [] + params == params;
  }

  lemma PrependNone(text: Text, params: seq<Value>)
    ensures Prepend(text, params, None) == None
  {
  }

  /** What may follow a percent sign at the end of a message. */
  lemma LastVerb(fmt: Formatter, b: byte, args: seq<Value>)
    ensures Sanitized(fmt, [b], args, true) ==
      if (b == 113 || b == 118 || b == 100 || b == 115) && |args| == 1 then Some(Message([115], [Str(fmt(b, args[0]))]))
      else if b == 37 && args == [] then Some(Message([37], []))
      else None
  {
    hide DecodeRune, WriteRune, Prepend;
    LastByte(b);
    PrependToEnd([37], [], []);
    PrependNone([37], []);
    if args != [] {
      assert args[1..] == [] <==> |args| == 1;
      PrependToEnd([115], [Str(fmt(b, args[0]))], []);
      PrependNone([115], [Str(fmt(b, args[0]))]);
    }
  }

  /** The translation letter by letter: a percent sign (37) takes one argument if q, v, d or s (113,
      118, 100, 115) follows, and none if another percent sign does; nothing else may follow it. */
  lemma OneVerb(fmt: Formatter, b: byte, args: seq<Value>)
    ensures Sanitized(fmt, [37, b], args, false) ==
      if (b == 113 || b == 118 || b == 100 || b == 115) && |args| == 1 then Some(Message([37, 115], [Str(fmt(b, args[0]))]))
      else if b == 37 && args == [] then Some(Message([37, 37], []))
      else None
  {
    hide DecodeRune, WriteRune, Prepend;
    LastVerb(fmt, b, args);
    AsciiRune([37, b]);
    assert [37, b][1..] == [b];
    assert Sanitized(fmt, [37, b], args, false) == Prepend([37], [], Sanitized(fmt, [b], args, true));
    PrependToEnd([37], [], [37]);
    assert [37 as byte] + [37] == [37, 37] && [37 as byte] + [115] == [37, 115];
    if args != [] {
      PrependToEnd([115], [Str(fmt(b, args[0]))], [37]);
    }
    PrependNone([37], []);
  }

  /** Any other byte stays as it is, unless it is no UTF-8: then EF BF BD takes its place. */
  lemma OneByte(fmt: Formatter, b: byte)
    ensures Sanitized(fmt, [b], [], false) ==
      if b == 37 then None else if b < 128 then Some(Message([b], [])) else Some(Message([239, 191, 189], []))
  {
    hide DecodeRune, WriteRune, Prepend;
    LastByte(b);
    PrependToEnd(WriteRune(DecodeRune([b]).r), [], []);
    PrependNone([b], []);
  }

  // ---------- What the answer means ----------

  predicate ValidUtf8(msg: Text)
    decreases |msg|
  {
    msg == [] || (!BadDecode(DecodeRune(msg)) && ValidUtf8(msg[DecodeRune(msg).n..]))
  }

  lemma {:induction false} RenderLiteral(fmt: Formatter, bytes: Text, x: Text, args: seq<Value>)
    requires forall k :: 0 <= k < |bytes| ==> bytes[k] >= 0x80
    ensures Render(fmt, bytes + x, args, false) == Before(bytes, Render(fmt, x, args, false))
  {
    if bytes == [] {
      assert bytes + x == x;
      if Render(fmt, x, args, false).Some? {
        assert [] + Render(fmt, x, args, false).value == Render(fmt, x, args, false).value;
      }
    } else {
      assert (bytes + x)[1..] == bytes[1..] + x;
      RenderLiteral(fmt, bytes[1..], x, args);
      if Render(fmt, x, args, false).Some? {
        var out := Render(fmt, x, args, false).value;
        assert [bytes[0]] + (bytes[1..] + out) == bytes + out;
      }
    }
  }

  /** The two renderings of a sanitized message, side by side. */
  ghost predicate SameUpTo(valid: bool, out: Option<Text>, out': Option<Text>) {
    && out.Some? && out'.Some?
    && (valid ==> out == out')
    && (!valid ==> |out.value| < |out'.value|)
  }

  lemma SameBefore(valid: bool, t: Text, out: Option<Text>, t': Text, out': Option<Text>)
    requires SameUpTo(valid, out, out') && |t| <= |t'|
    ensures t == t' ==> SameUpTo(valid, Before(t, out), Before(t', out'))
    ensures |t| < |t'| ==> SameUpTo(false, Before(t, out), Before(t', out'))
  {
  }

  lemma VerbRendered(fmt: Formatter, r: int, arg: Value, m: Message)
    requires KeepsStrings(fmt)
    ensures Render(fmt, [VERB_S] + m.text, [Str(fmt(r, arg))] + m.params, true)
         == Before(fmt(r, arg), Render(fmt, m.text, m.params, false))
  {
    assert ([VERB_S] + m.text)[1..] == m.text;
    assert ([Str(fmt(r, arg))] + m.params)[1..] == m.params;
  }

  /** A rune beyond ASCII is copied, except that a malformed byte turns into three bytes. */
  lemma HighRuneRendered(fmt: Formatter, msg: Text, args: seq<Value>, m: Message)
    requires msg != [] && msg[0] >= 0x80
    requires SameUpTo(ValidUtf8(msg[DecodeRune(msg).n..]),
      Render(fmt, msg[DecodeRune(msg).n..], args, false), Render(fmt, m.text, m.params, false))
    ensures SameUpTo(ValidUtf8(msg), Render(fmt, msg, args, false),
      Render(fmt, WriteRune(DecodeRune(msg).r) + m.text, m.params, false))
  {
    var d := DecodeRune(msg);
    var rest := msg[d.n..];
    AsciiRune(msg);
    assert msg == msg[..d.n] + rest;
    RenderLiteral(fmt, msg[..d.n], rest, args);
    RenderLiteral(fmt, WriteRune(d.r), m.text, m.params);
    if BadDecode(d) {
      assert |WriteRune(d.r)| == 3;
    } else {
      EncodeDecode(msg);
    }
    SameBefore(ValidUtf8(rest), msg[..d.n], Render(fmt, rest, args, false), WriteRune(d.r), Render(fmt, m.text, m.params, false));
  }

  lemma {:induction false} RenderSanitized(fmt: Formatter, msg: Text, args: seq<Value>, pct: bool)
    requires KeepsStrings(fmt) && Sanitized(fmt, msg, args, pct).Some?
    ensures var m := Sanitized(fmt, msg, args, pct).value;
      SameUpTo(ValidUtf8(msg), Render(fmt, msg, args, pct), Render(fmt, m.text, m.params, pct))
    decreases |msg|
  {
    if msg != [] {
      var d := DecodeRune(msg);
      var rest := msg[d.n..];
      AsciiRune(msg);
      if pct && Supported(d.r) {
        RenderSanitized(fmt, rest, args[1..], false);
        var m' := Sanitized(fmt, rest, args[1..], false).value;
        VerbRendered(fmt, d.r, args[0], m');
        SameBefore(ValidUtf8(rest), fmt(d.r, args[0]), Render(fmt, rest, args[1..], false),
                   fmt(d.r, args[0]), Render(fmt, m'.text, m'.params, false));
      } else {
        var next := !pct && d.r == PERCENT;
        RenderSanitized(fmt, rest, args, next);
        var m' := Sanitized(fmt, rest, args, next).value;
        assert [] + m'.params == m'.params;
        if msg[0] < 0x80 {
          assert ([msg[0]] + m'.text)[1..] == m'.text;
          SameBefore(ValidUtf8(rest), [msg[0]], Render(fmt, rest, args, next), [msg[0]], Render(fmt, m'.text, m'.params, next));
        } else {
          HighRuneRendered(fmt, msg, args, m');
        }
      }
    }
  }

  /** The translation preserves meaning exactly on valid UTF-8: both messages render, and to the
      same text if and only if the original message holds no malformed byte. */
  lemma MeaningPreserved(fmt: Formatter, msg: Text, args: seq<Value>, m: Message)
    requires KeepsStrings(fmt) && Sanitized(fmt, msg, args, false) == Some(m)
    ensures Render(fmt, msg, args, false).Some? && Render(fmt, m.text, m.params, false).Some?
    ensures Render(fmt, m.text, m.params, false) == Render(fmt, msg, args, false) <==> ValidUtf8(msg)
  {
    RenderSanitized(fmt, msg, args, false);
  }

  // ---------- The answer is plain and stable ----------

  /** Every percent sign starts %s or %%. */
  predicate OnlyPlainVerbs(msg: Text, pct: bool)
    decreases |msg|
  {
    if msg == [] then !pct
    else if pct then (msg[0] == VERB_S || msg[0] == PERCENT) && OnlyPlainVerbs(msg[1..], false)
    else OnlyPlainVerbs(msg[1..], msg[0] == PERCENT)
  }

  lemma {:induction false} PlainLiteral(bytes: Text, x: Text)
    requires forall k :: 0 <= k < |bytes| ==> bytes[k] >= 0x80
    ensures OnlyPlainVerbs(bytes + x, false) == OnlyPlainVerbs(x, false)
  {
    if bytes == [] {
      assert bytes + x == x;
    } else {
      assert (bytes + x)[1..] == bytes[1..] + x;
      PlainLiteral(bytes[1..], x);
    }
  }

  lemma WriteRuneDecodes(r: int, x: Text)
    requires 0 <= r
    ensures WriteRune(r) != [] && DecodeRune(WriteRune(r) + x).n == |WriteRune(r)|
    ensures WriteRune(DecodeRune(WriteRune(r) + x).r) == WriteRune(r)
    ensures (WriteRune(r) + x)[|WriteRune(r)|..] == x
    ensures !BadDecode(DecodeRune(WriteRune(r) + x))
    ensures DecodeRune(WriteRune(r) + x).r == (if IsScalar(r) then r else RUNE_ERROR)
  {
    DecodeEncode(if IsScalar(r) then r else RUNE_ERROR, x);
  }

  /** The result uses only %s and %%, is valid UTF-8, and sanitizes to itself. */
  lemma {:induction false} SanitizedIsFixed(fmt: Formatter, msg: Text, args: seq<Value>, pct: bool)
    requires KeepsStrings(fmt) && Sanitized(fmt, msg, args, pct).Some?
    ensures var m := Sanitized(fmt, msg, args, pct).value;
      && Sanitized(fmt, m.text, m.params, pct) == Some(m)
      && OnlyPlainVerbs(m.text, pct)
      && ValidUtf8(m.text)
    decreases |msg|
  {
    if msg != [] {
      var d := DecodeRune(msg);
      var rest := msg[d.n..];
      AsciiRune(msg);
      if pct && Supported(d.r) {
        SanitizedIsFixed(fmt, rest, args[1..], false);
        var m' := Sanitized(fmt, rest, args[1..], false).value;
        var text, params := [VERB_S] + m'.text, [Str(fmt(d.r, args[0]))] + m'.params;
        AsciiRune(text);
        assert text[1..] == m'.text && params[1..] == m'.params;
      } else {
        var next := !pct && d.r == PERCENT;
        SanitizedIsFixed(fmt, rest, args, next);
        var m' := Sanitized(fmt, rest, args, next).value;
        assert [] + m'.params == m'.params;
        WriteRuneDecodes(d.r, m'.text);
        if msg[0] < 0x80 {
          assert ([msg[0]] + m'.text)[1..] == m'.text;
          AsciiRune([msg[0]] + m'.text);
        } else {
          PlainLiteral(WriteRune(d.r), m'.text);
        }
      }
    }
  }
}
