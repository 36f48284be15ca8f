/**
 * `ConsoleUtils.ReadInt`: reading a number from key presses. Digits are collected in
 * a buffer; Enter accepts the buffer when it parses to an `int` no larger than `max`
 * and otherwise clears it. The keys come from a finite sequence; when it runs out the
 * console would block waiting for more.
 */
module ConsoleUtils {
  import opened Common

  /** A key press as `ReadInt` tells them apart: a character for which `char.IsDigit` holds, Enter, or anything else. */
  datatype Key = Digit(c: char) | Enter | Other

  /** The number returned and how many keys were read, or: the keys ran out before a number was accepted. */
  datatype ReadResult = Read(value: int, consumed: nat) | OutOfKeys

  /** `int.MaxValue`. */
  const IntMax: int := 0x7fff_ffff

  /** `int.TryParse` accepts only the ASCII digits, not every character that `char.IsDigit` admits. */
  predicate IsAsciiDigit(c: char)
  {
    '0' <= c <= '9'
  }

  predicate AllAsciiDigits(s: string)
  {
    forall i :: 0 <= i < |s| ==> IsAsciiDigit(s[i])
  }

  /** The number a string of decimal digits denotes; leading zeros add nothing. */
  function DecimalValue(s: string): nat
    requires AllAsciiDigits(s)
  {
    if s == [] then 0 else DecimalValue(s[..|s| - 1]) * 10 + (s[|s| - 1] as int - '0' as int)
  }

  /** `int.TryParse` of a buffer of digit characters. */
  function TryParseInt(s: string): (r: Option<int>)
    ensures r.Some? <==> s != [] && AllAsciiDigits(s) && DecimalValue(s) <= IntMax
    ensures r.Some? ==> 0 <= r.value <= IntMax && r.value == DecimalValue(s)
  {
    if s != [] && AllAsciiDigits(s) && DecimalValue(s) <= IntMax then Some(DecimalValue(s)) else None
  }

  /** What `ReadInt` returns when it goes on at `keys[i]` with `buffer` entered so far. */
  function Scan(keys: seq<Key>, max: int, buffer: string, i: nat): (r: ReadResult)
    requires i <= |keys|
    ensures r.Read? ==> i < r.consumed <= |keys| && keys[r.consumed - 1] == Enter
    decreases |keys| - i
  {
    if i == |keys| then OutOfKeys
    else
      match keys[i]
      case Digit(c) => Scan(keys, max, buffer + [c], i + 1)
      case Other => Scan(keys, max, buffer, i + 1)
      case Enter =>
        if buffer == [] then Read(1, i + 1)
        else
          var parsed := TryParseInt(buffer);
          if parsed.Some? && parsed.value <= max then Read(parsed.value, i + 1)
          else Scan(keys, max, [], i + 1)
  }

  /**
   * The buffer `ReadInt` holds when it reaches `keys[j]`, having gone on at `keys[i]`
   * with `buffer` and accepted no number in between: digits are appended, Enter
   * clears it, other keys leave it.
   */
  function Buffered(keys: seq<Key>, buffer: string, i: nat, j: nat): string
    requires i <= j <= |keys|
    decreases j - i
  {
    if i == j then buffer
    else
      match keys[i]
      case Digit(c) => Buffered(keys, buffer + [c], i + 1, j)
      case Other => Buffered(keys, buffer, i + 1, j)
      case Enter => Buffered(keys, [], i + 1, j)
  }

  /** The largest value `ReadInt` can return: `max`, or 1 for Enter on an empty buffer. */
  function Bound(max: int): int
  {
    if max < 1 then 1 else max
  }

  /**
   * A result comes from the buffer at the Enter key that ends the read: 1 when that
   * buffer is empty, and otherwise the number it parses to, which is at most `max`.
   * So a result lies in `[0, max]` unless it is the 1 returned for an empty buffer.
   */
  lemma {:induction false} ScanResult(keys: seq<Key>, max: int, buffer: string, i: nat)
    requires i <= |keys|
    ensures Scan(keys, max, buffer, i).Read? ==>
      var r := Scan(keys, max, buffer, i);
      var b := Buffered(keys, buffer, i, r.consumed - 1);
      (b == [] && r.value == 1) || (TryParseInt(b) == Some(r.value) && r.value <= max)
    ensures Scan(keys, max, buffer, i).Read? ==> 0 <= Scan(keys, max, buffer, i).value <= Bound(max)
    decreases |keys| - i
  {
    if i < |keys| {
      match keys[i]
      case Digit(c) => ScanResult(keys, max, buffer + [c], i + 1);
      case Other => ScanResult(keys, max, buffer, i + 1);
      case Enter => ScanResult(keys, max, [], i + 1);
    }
  }

  /** `ReadInt(max)` fed with `keys`. */
  method ReadInt(keys: seq<Key>, max: int) returns (r: ReadResult)
    ensures r == Scan(keys, max, [], 0)
    ensures r.Read? ==> 0 < r.consumed <= |keys| && keys[r.consumed - 1] == Enter
    ensures r.Read? ==> 0 <= r.value <= Bound(max)
  {
    ScanResult(keys, max, [], 0);
    var buffer: string := [];
    var i := 0;
    while i < |keys|
      invariant i <= |keys|
      invariant Scan(keys, max, buffer, i) == Scan(keys, max, [], 0)
    {
      var key := keys[i];
      i := i + 1;
      if key.Digit? {
        buffer := buffer + [key.c];
      } else if key == Enter {
        if buffer == [] {
          return Read(1, i);
        }
        var selected := TryParseInt(buffer);
        if selected.Some? && selected.value <= max {
          return Read(selected.value, i);
        }
        buffer := [];
      }
    }
    return OutOfKeys;
  }

  /** Keys that are neither digits nor Enter leave the buffer as it is and are skipped. */
  lemma {:induction false} OtherKeysIgnored(keys: seq<Key>, max: int, buffer: string, i: nat, j: nat)
    requires i <= j <= |keys|
    requires forall k :: i <= k < j ==> keys[k] == Other
    ensures Scan(keys, max, buffer, i) == Scan(keys, max, buffer, j)
    decreases j - i
  {
    if i < j {
      OtherKeysIgnored(keys, max, buffer, i + 1, j);
    }
  }

  /** Enter on an empty buffer returns 1, whatever `max` is, even when `max` is 0. */
  lemma EnterOnEmptyBuffer(keys: seq<Key>, max: int, n: nat)
    requires n < |keys| && keys[n] == Enter
    requires forall k :: 0 <= k < n ==> keys[k] == Other
    ensures Scan(keys, max, [], 0) == Read(1, n + 1)
  {
    OtherKeysIgnored(keys, max, [], 0, n);
  }

  /** The keys that type the characters of `s`, one by one. */
  function Typed(s: string): (r: seq<Key>)
    ensures |r| == |s| && forall i :: 0 <= i < |s| ==> r[i] == Digit(s[i])
  {
    if s == [] then [] else [Digit(s[0])] + Typed(s[1..])
  }

  /** Typing digits appends them to the buffer. */
  lemma {:induction false} TypedDigitsBuffered(keys: seq<Key>, max: int, s: string, k: nat)
    requires |s| <= |keys| && k <= |s|
    requires forall j :: 0 <= j < |s| ==> keys[j] == Digit(s[j])
    ensures Scan(keys, max, s[..k], k) == Scan(keys, max, s, |s|)
    decreases |s| - k
  {
    if k < |s| {
      assert s[..k] + [s[k]] == s[..k + 1];
      TypedDigitsBuffered(keys, max, s, k + 1);
    } else {
      assert s[..k] == s;
    }
  }

  /**
   * Typing the characters `s` and then Enter: a number that parses and is at most `max`
   * is returned (leading zeros allowed, and 0 is not refused); anything else, be it
   * too large for `int`, above `max` or not made of ASCII digits, clears the buffer
   * and reading goes on after the Enter.
   */
  lemma TypedThenEnter(s: string, rest: seq<Key>, max: int)
    requires s != []
    ensures var keys := Typed(s) + [Enter] + rest;
      var parsed := TryParseInt(s);
      Scan(keys, max, [], 0) ==
        if parsed.Some? && parsed.value <= max then Read(parsed.value, |s| + 1)
        else Scan(keys, max, [], |s| + 1)
  {
    var keys := Typed(s) + [Enter] + rest;
    TypedDigitsBuffered(keys, max, s, 0);
    assert s[..0] == [];
    assert keys[|s|] == Enter;
  }

  /** `0` then Enter gives 0, which is below the range that callers number from 1. */
  lemma ZeroThenEnter(rest: seq<Key>, max: int)
    requires max >= 0
    ensures Scan([Digit('0'), Enter] + rest, max, [], 0) == Read(0, 2)
  {
    TypedThenEnter("0", rest, max);
    assert Typed("0") == [Digit('0')];
    assert DecimalValue("0") == 0 by {
      assert "0"[..0] == [];
    }
  }
}
