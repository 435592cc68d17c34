/**
  The helpers of src/components/VoiceInterview/utils.ts: the elapsed-time
  clock format, the two status switches, and the shallow snake/kebab-case to
  camelCase key rewriter for the session object.
 */
module Utils {
  import opened Strings
  import opened Types

  // ---------------------------------------------------------------------
  // formatTime
  // ---------------------------------------------------------------------

  /** The quotient `a / b` truncated toward zero, as `Math.trunc` gives it. */
  function JsQuotient(a: int, b: int): int
    requires b > 0
  {
    if a >= 0 then a / b else -((-a) / b)
  }

  /**
    `a % b` in JavaScript: the remainder left by the truncated quotient, so it
    takes the sign of the dividend.
   */
  function JsRemainder(a: int, b: int): (r: int)
    requires b > 0
    ensures a >= 0 ==> 0 <= r < b
    ensures a < 0 ==> -b < r <= 0
    ensures a == b * JsQuotient(a, b) + r
  {
    if a >= 0 then a % b else -((-a) % b)
  }

  /** `Math.floor(ms / 60000)`; Dafny's division by a positive divisor floors. */
  function Minutes(ms: int): int {
    ms / 60000
  }

  /** `Math.floor((ms % 60000) / 1000)`. */
  function Seconds(ms: int): int {
    JsRemainder(ms, 60000) / 1000
  }

  /** `${minutes}:${seconds.toString().padStart(2, '0')}`. */
  function FormatTime(ms: int): string {
    IntToString(Minutes(ms)) + ":" + PadStart(IntToString(Seconds(ms)), 2, '0')
  }

  /**
    For a non-negative duration the two fields are its whole minutes and the
    whole seconds left over, seconds lie in 0..59, and together they pin the
    duration down to the second.
   */
  lemma ClockFields(ms: int)
    requires ms >= 0
    ensures Minutes(ms) == ms / 60000 && Seconds(ms) == (ms % 60000) / 1000
    ensures Minutes(ms) >= 0 && 0 <= Seconds(ms) <= 59
    ensures Minutes(ms) * 60000 + Seconds(ms) * 1000 <= ms < Minutes(ms) * 60000 + Seconds(ms) * 1000 + 1000
    ensures ms / 1000 == Minutes(ms) * 60 + Seconds(ms)
  {
    var m, r := ms / 60000, ms % 60000;
    assert ms == m * 60000 + r && 0 <= r < 60000;
    var s, t := r / 1000, r % 1000;
    assert r == s * 1000 + t && 0 <= t < 1000;
    assert ms == (m * 60 + s) * 1000 + t;
  }

  /** Two digits, zero-padded, for a number below one hundred. */
  lemma PaddedTwoDigits(s: nat)
    requires s < 100
    ensures PadStart(NatToDecimal(s), 2, '0') == [Digit(s / 10), Digit(s % 10)]
  {
    if s < 10 {
      assert Digit(0) == '0';
    } else {
      assert NatToDecimal(s / 10) == [Digit(s / 10)];
    }
  }

  lemma TwoDigitValue(s: nat)
    requires s < 100
    ensures DecimalValue([Digit(s / 10), Digit(s % 10)]) == s
  {
    var t := [Digit(s / 10), Digit(s % 10)];
    assert DigitValue(Digit(s / 10)) == s / 10 && DigitValue(Digit(s % 10)) == s % 10;
    assert t[..1] == [Digit(s / 10)];
    assert t[..1][..0] == [];
    assert DecimalValue(t[..1]) == s / 10;
  }

  /** The output is the minutes numeral, a colon, then exactly two digits of seconds. */
  lemma FormatTimeShape(ms: int)
    requires ms >= 0
    ensures FormatTime(ms) ==
      NatToDecimal(ms / 60000) + ":" + [Digit(Seconds(ms) / 10), Digit(Seconds(ms) % 10)]
  {
    ClockFields(ms);
    PaddedTwoDigits(Seconds(ms));
  }

  /** Reads an `m:ss` string back into its two numbers. */
  function ParseClock(s: string): Option<(nat, nat)> {
    if |s| >= 4 && s[|s| - 3] == ':' && AllDigits(s[..|s| - 3]) && AllDigits(s[|s| - 2..])
    then Some((DecimalValue(s[..|s| - 3]), DecimalValue(s[|s| - 2..])))
    else None
  }

  lemma ParseClockJoin(head: string, tail: string)
    requires |head| >= 1 && AllDigits(head) && |tail| == 2 && AllDigits(tail)
    ensures ParseClock(head + ":" + tail) == Some((DecimalValue(head), DecimalValue(tail)))
  {
    var out := head + ":" + tail;
    assert out[|out| - 3] == ':';
    assert out[..|out| - 3] == head;
    assert out[|out| - 2..] == tail;
  }

  /** Parsing the output gives back its two fields. */
  lemma FormatTimeReadsBack(ms: int)
    requires ms >= 0
    ensures ParseClock(FormatTime(ms)) == Some((Minutes(ms), Seconds(ms)))
  {
    var sec := Seconds(ms);
    assert 0 <= sec <= 59 by {
      ClockFields(ms);
    }
    FormatTimeShape(ms);
    var head := NatToDecimal(ms / 60000);
    var tail := [Digit(sec / 10), Digit(sec % 10)];
    ParseClockJoin(head, tail);
    DecimalRoundTrip(ms / 60000);
    TwoDigitValue(sec);
  }

  lemma FormatTimeParses(ms: int)
    requires ms >= 0
    ensures ParseClock(FormatTime(ms)) == Some((ms / 60000, (ms % 60000) / 1000))
  {
    FormatTimeReadsBack(ms);
    ClockFields(ms);
  }

  /** Two non-negative durations display alike exactly when they agree to the second. */
  lemma FormatTimeSameSecond(a: int, b: int)
    requires a >= 0 && b >= 0
    ensures FormatTime(a) == FormatTime(b) <==> a / 1000 == b / 1000
  {
    ClockFields(a);
    ClockFields(b);
    if FormatTime(a) == FormatTime(b) {
      FormatTimeParses(a);
      FormatTimeParses(b);
    }
    if a / 1000 == b / 1000 {
      var q := a / 1000;
      assert Minutes(a) == q / 60 && Seconds(a) == q % 60;
      assert Minutes(b) == q / 60 && Seconds(b) == q % 60;
    }
  }

  // ---------------------------------------------------------------------
  // getConnectionStatusColor / getConnectionStatusText
  // ---------------------------------------------------------------------

  const CONNECTED_COLOR := "text-green-600 bg-green-100"
  const CONNECTING_COLOR := "text-yellow-600 bg-yellow-100"
  const ERROR_COLOR := "text-red-600 bg-red-100"
  const DEFAULT_COLOR := "text-gray-600 bg-gray-100"

  /** Total over every string: three named statuses, anything else falls to gray. */
  function ConnectionStatusColor(status: string): (r: string)
    ensures r in {CONNECTED_COLOR, CONNECTING_COLOR, ERROR_COLOR, DEFAULT_COLOR}
    ensures r == DEFAULT_COLOR <==> ParseStatus(status) !in {Some(Connected), Some(Connecting), Some(Error)}
  {
    if status == StatusName(Connected) then CONNECTED_COLOR
    else if status == StatusName(Connecting) then CONNECTING_COLOR
    else if status == StatusName(Error) then ERROR_COLOR
    else DEFAULT_COLOR
  }

  function ConnectionStatusText(status: string): (r: string)
    ensures r in {"Voice Connected", "Connecting...", "Connection Error", "Disconnected"}
    ensures r == "Disconnected" <==> ParseStatus(status) !in {Some(Connected), Some(Connecting), Some(Error)}
  {
    if status == StatusName(Connected) then "Voice Connected"
    else if status == StatusName(Connecting) then "Connecting..."
    else if status == StatusName(Error) then "Connection Error"
    else "Disconnected"
  }

  /** The badge colour and the badge text always describe the same case. */
  lemma ColorAndTextAgree(s: string, t: string)
    ensures ConnectionStatusColor(s) == ConnectionStatusColor(t) <==> ConnectionStatusText(s) == ConnectionStatusText(t)
  {
  }

  /** The rendering of each status a state cell can hold. */
  lemma StatusRendering(c: ConnectionStatus)
    ensures ConnectionStatusText(StatusName(c)) ==
      match c
      case Connected => "Voice Connected"
      case Connecting => "Connecting..."
      case Error => "Connection Error"
      case Disconnected => "Disconnected"
    ensures ConnectionStatusColor(StatusName(c)) ==
      match c
      case Connected => CONNECTED_COLOR
      case Connecting => CONNECTING_COLOR
      case Error => ERROR_COLOR
      case Disconnected => DEFAULT_COLOR
  {
  }

  // ---------------------------------------------------------------------
  // toCamel: s.replace(/([-_][a-z])/g, g => g.toUpperCase() without '-'/'_')
  // ---------------------------------------------------------------------

  predicate IsSeparator(c: char) {
    c == '-' || c == '_'
  }

  /** A match of `[-_][a-z]` starts at position i. */
  predicate GroupAt(s: string, i: int) {
    0 <= i && i + 1 < |s| && IsSeparator(s[i]) && IsAsciiLower(s[i + 1])
  }

  predicate HasGroup(s: string) {
    exists i :: 0 <= i < |s| && GroupAt(s, i)
  }

  /**
    The global replace scans left to right; each match is consumed whole, so
    matches never overlap, and a match becomes the upper-case letter alone.
   */
  function ToCamel(s: string): (r: string)
    ensures |r| <= |s|
    ensures s == [] <==> r == []
    ensures s != [] ==> r[0] == s[0] || IsAsciiUpper(r[0])
    decreases |s|
  {
    if GroupAt(s, 0) then [ToUpperAscii(s[1])] + ToCamel(s[2..])
    else if s == [] then []
    else [s[0]] + ToCamel(s[1..])
  }

  lemma HasGroupCons(c: char, t: string)
    ensures HasGroup([c] + t) <==> (IsSeparator(c) && t != [] && IsAsciiLower(t[0])) || HasGroup(t)
  {
    var s := [c] + t;
    if HasGroup(s) {
      var i :| 0 <= i < |s| && GroupAt(s, i);
      if i > 0 {
        assert GroupAt(t, i - 1);
      }
    }
    if HasGroup(t) {
      var j :| 0 <= j < |t| && GroupAt(t, j);
      assert j + 1 < |t|;
      assert s[j + 1] == t[j] && s[j + 2] == t[j + 1];
      assert GroupAt(s, j + 1);
    }
    if IsSeparator(c) && t != [] && IsAsciiLower(t[0]) {
      assert GroupAt(s, 0);
    }
  }

  /** The output holds no separator followed by a lower-case letter. */
  lemma {:induction false} ToCamelLeavesNoGroup(s: string)
    ensures !HasGroup(ToCamel(s))
    decreases |s|
  {
    if GroupAt(s, 0) {
      ToCamelLeavesNoGroup(s[2..]);
      HasGroupCons(ToUpperAscii(s[1]), ToCamel(s[2..]));
    } else if s != [] {
      var rest := ToCamel(s[1..]);
      ToCamelLeavesNoGroup(s[1..]);
      HasGroupCons(s[0], rest);
      assert ToCamel(s) == [s[0]] + rest;
    }
  }

  lemma {:induction false} ToCamelIdentity(s: string)
    requires !HasGroup(s)
    ensures ToCamel(s) == s
    decreases |s|
  {
    if s != [] {
      assert !GroupAt(s, 0);
      assert s == [s[0]] + s[1..];
      HasGroupCons(s[0], s[1..]);
      ToCamelIdentity(s[1..]);
    }
  }

  lemma {:induction false} ToCamelShrinks(s: string)
    requires HasGroup(s)
    ensures |ToCamel(s)| < |s|
    decreases |s|
  {
    if !GroupAt(s, 0) {
      assert s == [s[0]] + s[1..];
      HasGroupCons(s[0], s[1..]);
      ToCamelShrinks(s[1..]);
    }
  }

  /** The rewriter leaves a string alone exactly when it has nothing to rewrite. */
  lemma ToCamelFixedIff(s: string)
    ensures ToCamel(s) == s <==> !HasGroup(s)
  {
    if HasGroup(s) {
      ToCamelShrinks(s);
    } else {
      ToCamelIdentity(s);
    }
  }

  lemma ToCamelIdempotent(s: string)
    ensures ToCamel(ToCamel(s)) == ToCamel(s)
  {
    ToCamelLeavesNoGroup(s);
    ToCamelIdentity(ToCamel(s));
  }

  // ---------------------------------------------------------------------
  // camelCaseSession
  // ---------------------------------------------------------------------

  /** The JavaScript values `camelCaseSession` can be handed; an object's properties in enumeration order. */
  datatype JsValue =
    | JsNull
    | JsUndefined
    | JsBool(b: bool)
    | JsNumber(n: int)
    | JsString(s: string)
    | JsObject(props: seq<(string, JsValue)>)

  predicate Truthy(v: JsValue) {
    match v
    case JsNull => false
    case JsUndefined => false
    case JsBool(b) => b
    case JsNumber(n) => n != 0
    case JsString(s) => s != ""
    case JsObject(_) => true
  }

  /** `typeof v === 'object'` (true of null as well). */
  predicate IsObjectType(v: JsValue) {
    v.JsNull? || v.JsObject?
  }

  /** `obj[key]` for an own property. */
  function Get(props: seq<(string, JsValue)>, key: string): Option<JsValue>
    decreases |props|
  {
    if props == [] then None
    else if props[0].0 == key then Some(props[0].1)
    else Get(props[1..], key)
  }

  /** `obj[key] = v`: an existing property keeps its place, a new one goes last. */
  function SetProp(props: seq<(string, JsValue)>, key: string, v: JsValue): seq<(string, JsValue)>
    decreases |props|
  {
    if props == [] then [(key, v)]
    else if props[0].0 == key then [(key, v)] + props[1..]
    else [props[0]] + SetProp(props[1..], key, v)
  }

  lemma {:induction false} GetAfterSet(props: seq<(string, JsValue)>, key: string, v: JsValue, q: string)
    ensures Get(SetProp(props, key, v), q) == if q == key then Some(v) else Get(props, q)
    decreases |props|
  {
    if props != [] && props[0].0 != key {
      GetAfterSet(props[1..], key, v, q);
    }
  }

  /** The value of the last property whose rewritten name is `camel`: later writes win. */
  function LastRenamed(props: seq<(string, JsValue)>, camel: string): Option<JsValue>
    decreases |props|
  {
    if props == [] then None
    else if ToCamel(props[|props| - 1].0) == camel then Some(props[|props| - 1].1)
    else LastRenamed(props[..|props| - 1], camel)
  }

  /** Falsy values and non-objects come back as they are; objects are copied key by key. */
  method CamelCaseSession(obj: JsValue) returns (r: JsValue)
    ensures !Truthy(obj) || !IsObjectType(obj) ==> r == obj
    ensures Truthy(obj) && IsObjectType(obj) ==>
      r.JsObject? && forall k :: Get(r.props, k) == LastRenamed(obj.props, k)
  {
    if !Truthy(obj) || !IsObjectType(obj) {
      return obj;
    }
    var props := obj.props;
    var result: seq<(string, JsValue)> := [];
    for i := 0 to |props|
      invariant forall k :: Get(result, k) == LastRenamed(props[..i], k)
    {
      var key := ToCamel(props[i].0);
      forall k | true
        ensures Get(SetProp(result, key, props[i].1), k) == LastRenamed(props[..i + 1], k)
      {
        GetAfterSet(result, key, props[i].1, k);
        assert props[..i + 1][..i] == props[..i];
      }
      result := SetProp(result, key, props[i].1);
    }
    assert props[..|props|] == props;
    r := JsObject(result);
  }

  /** A rewritten name is present exactly when some original key rewrites to it. */
  lemma {:induction false} LastRenamedDefined(props: seq<(string, JsValue)>, camel: string)
    ensures LastRenamed(props, camel).Some? <==> exists i :: 0 <= i < |props| && ToCamel(props[i].0) == camel
    decreases |props|
  {
    if props != [] {
      var init := props[..|props| - 1];
      LastRenamedDefined(init, camel);
      assert forall i :: 0 <= i < |init| ==> init[i] == props[i];
    }
  }

  /** When no two keys rewrite alike, every value is kept, unchanged, under its rewritten key. */
  lemma {:induction false} LastRenamedKeepsValue(props: seq<(string, JsValue)>, i: nat)
    requires i < |props|
    requires forall a, b :: 0 <= a < b < |props| ==> ToCamel(props[a].0) != ToCamel(props[b].0)
    ensures LastRenamed(props, ToCamel(props[i].0)) == Some(props[i].1)
    decreases |props|
  {
    if i < |props| - 1 {
      var init := props[..|props| - 1];
      assert init[i] == props[i];
      LastRenamedKeepsValue(init, i);
    }
  }

  /** No key occurs twice, as in every JavaScript object. */
  predicate DistinctKeys(props: seq<(string, JsValue)>) {
    forall a, b :: 0 <= a < b < |props| ==> props[a].0 != props[b].0
  }

  /** With distinct keys, reading a property's key gives that property's value. */
  lemma {:induction false} GetFindsEach(props: seq<(string, JsValue)>, i: nat)
    requires i < |props| && DistinctKeys(props)
    ensures Get(props, props[i].0) == Some(props[i].1)
    decreases |props|
  {
    if i > 0 {
      assert props[i].0 != props[0].0;
      assert forall a :: 0 <= a < |props| - 1 ==> props[1..][a] == props[a + 1];
      GetFindsEach(props[1..], i - 1);
    }
  }

  /**
    When no two keys rewrite alike, the copy answers a read of the rewritten
    key with what the original answers for the original key.
   */
  lemma RenamedReadsAsOriginal(props: seq<(string, JsValue)>, i: nat)
    requires i < |props|
    requires forall a, b :: 0 <= a < b < |props| ==> ToCamel(props[a].0) != ToCamel(props[b].0)
    ensures LastRenamed(props, ToCamel(props[i].0)) == Get(props, props[i].0)
  {
    LastRenamedKeepsValue(props, i);
    GetFindsEach(props, i);
  }
}
