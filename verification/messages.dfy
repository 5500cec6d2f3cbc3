/** The confirmation message of DELETE /outfits (bulk delete). The handler
    writes it as a double-quoted string, so `${result.deletedCount}` is not
    interpolated and reaches the client literally. The handler's model sends
    that message as written; `DeletedMessage` is the interpolated message
    that was evidently intended. */
module Messages {

  /** The decimal digit for `d`. */
  function DigitChar(d: nat): (c: char)
    requires d < 10
    ensures '0' <= c <= '9'
  {
    ('0' as int + d) as char
  }

  /** The value of a decimal digit character. */
  function DigitValue(c: char): nat
  {
    if '0' <= c <= '9' then c as int - '0' as int else 0
  }

  /** The decimal spelling of `n`, as `${n}` renders a number. */
  function Decimal(n: nat): (s: string)
    ensures |s| >= 1
    decreases n
  {
    if n < 10 then [DigitChar(n)] else Decimal(n / 10) + [DigitChar(n % 10)]
  }

  /** Reads a string of decimal digits back as a number. */
  function ParseDecimal(s: string): nat
  {
    if s == [] then 0 else ParseDecimal(s[..|s| - 1]) * 10 + DigitValue(s[|s| - 1])
  }

  lemma {:induction false} DecimalRoundTrip(n: nat)
    ensures ParseDecimal(Decimal(n)) == n
    decreases n
  {
    var s := Decimal(n);
    if n < 10 {
      assert s[..|s| - 1] == [];
    } else {
      DecimalRoundTrip(n / 10);
      assert s[..|s| - 1] == Decimal(n / 10);
    }
  }

  const DELETED_PREFIX := "Successfully deleted "
  const DELETED_SUFFIX := " outfits"

  /** The message exactly as server.js writes it: the same text whatever
      the count. */
  function DeletedMessageAsWritten(deletedCount: nat): string
  {
    "Successfully deleted ${result.deletedCount} outfits"
  }

  /** The message with the count interpolated, as evidently intended. */
  function DeletedMessage(deletedCount: nat): string
  {
    DELETED_PREFIX + Decimal(deletedCount) + DELETED_SUFFIX
  }

  /** The count a client reads out of a bulk-delete message. */
  function CountInMessage(msg: string): nat
  {
    if |msg| < |DELETED_PREFIX| + |DELETED_SUFFIX| then 0
    else ParseDecimal(msg[|DELETED_PREFIX|..|msg| - |DELETED_SUFFIX|])
  }

  /** As written, two different counts give the same message, so the
      message cannot report how many outfits were deleted. */
  lemma AsWrittenHidesCount()
    ensures DeletedMessageAsWritten(1) == DeletedMessageAsWritten(2)
    ensures CountInMessage(DeletedMessageAsWritten(2)) != 2
  {
    var msg := DeletedMessageAsWritten(2);
    var middle := msg[|DELETED_PREFIX|..|msg| - |DELETED_SUFFIX|];
    assert middle[|middle| - 1] == msg[|msg| - |DELETED_SUFFIX| - 1] == '}';
    assert ParseDecimal(middle) == ParseDecimal(middle[..|middle| - 1]) * 10;
  }

  /** With interpolation the message reports the count: reading it back
      yields the number of outfits deleted. */
  lemma {:induction false} DeletedMessageReportsCount(deletedCount: nat)
    ensures CountInMessage(DeletedMessage(deletedCount)) == deletedCount
  {
    var msg := DeletedMessage(deletedCount);
    assert msg[|DELETED_PREFIX|..|msg| - |DELETED_SUFFIX|] == Decimal(deletedCount);
    DecimalRoundTrip(deletedCount);
  }
}
