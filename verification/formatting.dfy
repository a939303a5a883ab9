/**
 * The shared formatting helpers: a `key: value` line with the key padded to a column, the
 * `<none>` stand-in for an absent value, and the default methods every formatter gets, which
 * write to the output buffer.
 */
module Formatting {
  import opened Wrappers
  import opened Strings
  import opened Errors
  import opened Output

  // ---------------------------------------------------------------------------------------
  // Key/value lines
  // ---------------------------------------------------------------------------------------

  /** The width is an `i8`; the line is built with it converted to a 64-bit `usize`. */
  predicate IsI8(padding: int) {
    -128 <= padding < 128
  }

  const USizeModulus := 0x1_0000_0000_0000_0000

  /** `padding as usize`: non-negative widths are kept, negative ones sign-extend to huge widths. */
  function AsUsize(padding: int): (w: nat)
    requires IsI8(padding)
    ensures padding >= 0 ==> w == padding
    ensures padding < 0 ==> w == USizeModulus + padding
  {
    if padding >= 0 then padding else USizeModulus + padding
  }

  /** `pad_key_value`: the key left-aligned in a column of `padding` characters, then `": "` and the value. */
  function PadKeyValue(key: string, value: string, padding: int): (r: string)
    requires IsI8(padding)
    ensures var column := if |key| < AsUsize(padding) then AsUsize(padding) else |key|;
      && |r| == column + 2 + |value|
      && r[..|key|] == key
      && (forall i :: |key| <= i < column ==> r[i] == ' ')
      && r[column..] == ": " + value
  {
    var column := PadRight(key, AsUsize(padding));
    PadRightSpaces(key, AsUsize(padding));
    assert (column + ": " + value)[..|column|] == column;
    assert (column + ": " + value)[|column|..] == ": " + value;
    column + ": " + value
  }

  /** The key is never cut: a key longer than the column pushes the separator right behind it. */
  lemma KeyNeverTruncated(key: string, value: string, padding: int)
    requires IsI8(padding) && |key| >= AsUsize(padding)
    ensures PadKeyValue(key, value, padding) == key + ": " + value
  {
    var r := PadKeyValue(key, value, padding);
    assert r == r[..|key|] + r[|key|..];
  }

  /** Lines for keys that fit the column line up: the separator sits at the same place in each. */
  lemma SeparatorsAligned(k1: string, v1: string, k2: string, v2: string, padding: int)
    requires IsI8(padding) && 0 <= padding && |k1| <= padding && |k2| <= padding
    ensures PadKeyValue(k1, v1, padding)[padding..padding + 2] == ": "
    ensures PadKeyValue(k2, v2, padding)[padding..padding + 2] == ": "
  {
    var r1 := PadKeyValue(k1, v1, padding);
    var r2 := PadKeyValue(k2, v2, padding);
    assert r1[padding..padding + 2] == r1[padding..][..2];
    assert r2[padding..padding + 2] == r2[padding..][..2];
  }

  /** `append_key_value`: the padded line goes to the buffer. */
  method AppendKeyValue(buffer: OutputBuffer, key: string, value: string, padding: int)
    requires IsI8(padding)
    modifies buffer
    ensures buffer.lines == old(buffer.lines) + [PadKeyValue(key, value, padding)]
    ensures buffer.warnings == old(buffer.warnings) && buffer.errors == old(buffer.errors) && buffer.filter == old(buffer.filter)
  {
    buffer.AppendLine(PadKeyValue(key, value, padding));
  }

  /** What stands in for an absent value. */
  const NoneText := "<none>"

  /** The value `append_some_key_value` writes: the value itself, or `<none>`. */
  function SomeOrNone(value: Option<string>): (s: string)
    ensures value.Some? ==> s == value.value
    ensures value.None? ==> s == "<none>"
  {
    if value.Some? then value.value else NoneText
  }

  /** `append_some_key_value`. */
  method AppendSomeKeyValue(buffer: OutputBuffer, key: string, value: Option<string>, padding: int)
    requires IsI8(padding)
    modifies buffer
    ensures buffer.lines == old(buffer.lines) + [PadKeyValue(key, SomeOrNone(value), padding)]
    ensures buffer.warnings == old(buffer.warnings) && buffer.errors == old(buffer.errors) && buffer.filter == old(buffer.filter)
  {
    if value.Some? {
      AppendKeyValue(buffer, key, value.value, padding);
    } else {
      AppendKeyValue(buffer, key, NoneText, padding);
    }
  }

  // ---------------------------------------------------------------------------------------
  // The default methods of `OutputFormatter`
  // ---------------------------------------------------------------------------------------

  /**
   * A formatter: the lines its `format` appends (a table rendering, left abstract) and the
   * pretty JSON text of the value.
   */
  datatype Formatter<-T> = Formatter(table: T -> seq<string>, json: T -> string)

  /** `format`: the table's lines are appended and the value is handed back. */
  method Format<T>(buffer: OutputBuffer, fmt: Formatter<T>, x: T) returns (r: Result<T, AppError>)
    modifies buffer
    ensures r == Success(x)
    ensures buffer.lines == old(buffer.lines) + fmt.table(x)
    ensures buffer.warnings == old(buffer.warnings) && buffer.errors == old(buffer.errors) && buffer.filter == old(buffer.filter)
  {
    AppendLines(buffer, fmt.table(x));
    r := Success(x);
  }

  /** `format_noreturn`: the same lines as `format`, without the value. */
  method FormatNoreturn<T>(buffer: OutputBuffer, fmt: Formatter<T>, x: T) returns (r: Outcome<AppError>)
    modifies buffer
    ensures r == Pass
    ensures buffer.lines == old(buffer.lines) + fmt.table(x)
    ensures buffer.warnings == old(buffer.warnings) && buffer.errors == old(buffer.errors) && buffer.filter == old(buffer.filter)
  {
    var _ := Format(buffer, fmt, x);
    r := Pass;
  }

  /** `format_json`: the JSON text as one line, and the value handed back. */
  method FormatJson<T>(buffer: OutputBuffer, fmt: Formatter<T>, x: T) returns (r: Result<T, AppError>)
    modifies buffer
    ensures r == Success(x)
    ensures buffer.lines == old(buffer.lines) + [fmt.json(x)]
    ensures buffer.warnings == old(buffer.warnings) && buffer.errors == old(buffer.errors) && buffer.filter == old(buffer.filter)
  {
    buffer.AppendLine(fmt.json(x));
    r := Success(x);
  }

  /** `format_json_noreturn`: the same line as `format_json`, without the value. */
  method FormatJsonNoreturn<T>(buffer: OutputBuffer, fmt: Formatter<T>, x: T) returns (r: Outcome<AppError>)
    modifies buffer
    ensures r == Pass
    ensures buffer.lines == old(buffer.lines) + [fmt.json(x)]
    ensures buffer.warnings == old(buffer.warnings) && buffer.errors == old(buffer.errors) && buffer.filter == old(buffer.filter)
  {
    buffer.AppendLine(fmt.json(x));
    r := Pass;
  }
}
