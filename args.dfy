/** The argument cursor the compiler reads its command with (rmutil's
    ArgsCursor): a vector of tokens and a read position.  Every reader
    either succeeds and moves past what it read, or fails with a status
    and leaves the position where it was. */
module Args {
  import opened Errors
  import opened Text

  /** AC_OK and the AC_ERR_* statuses. */
  datatype AcStatus = AcOk | AcErrParse | AcErrNoArg | AcErrElimit

  datatype ArgsCursor = ArgsCursor(objs: seq<string>, offset: nat)

  /** A cursor whose position lies within its tokens. */
  type Cursor = c: ArgsCursor | c.offset <= |c.objs| witness ArgsCursor([], 0)

  /** The result of a reader: the value read and the cursor after it. */
  datatype Got<T> = Got(value: T, rest: Cursor) | Failed(status: AcStatus)

  const UINT_MAX: int := 0xFFFF_FFFF
  const U64_MAX: int := 0xFFFF_FFFF_FFFF_FFFF
  const LLONG_MIN: int := -0x8000_0000_0000_0000
  const LLONG_MAX: int := 0x7FFF_FFFF_FFFF_FFFF

  /** The lower-bound flags of the numeric readers (0, AC_F_GE0, AC_F_GE1). */
  datatype IntFlags = AnyValue | GE0 | GE1

  function Init(objs: seq<string>): Cursor {
    ArgsCursor(objs, 0)
  }

  function NumRemaining(c: Cursor): nat {
    |c.objs| - c.offset
  }

  predicate IsAtEnd(c: Cursor) {
    c.offset == |c.objs|
  }

  /** The token under the cursor. */
  function Current(c: Cursor): string
    requires !IsAtEnd(c)
  {
    c.objs[c.offset]
  }

  /** The tokens not yet read. */
  function Remaining(c: Cursor): seq<string> {
    c.objs[c.offset..]
  }

  function Advance(c: Cursor, n: nat): (r: Cursor)
    requires n <= NumRemaining(c)
    ensures r.objs == c.objs && NumRemaining(r) == NumRemaining(c) - n
  {
    ArgsCursor(c.objs, c.offset + n)
  }

  /** AC_AdvanceIfMatch: the next token equals `s` ignoring case. */
  function AdvanceIfMatch(c: Cursor, s: string): (r: (bool, Cursor))
    ensures r.0 <==> !IsAtEnd(c) && EqualsIgnoreCase(Current(c), s)
    ensures r.0 ==> r.1 == Advance(c, 1)
    ensures !r.0 ==> r.1 == c
  {
    if !IsAtEnd(c) && EqualsIgnoreCase(Current(c), s) then (true, Advance(c, 1)) else (false, c)
  }

  /** AC_GetString: the next token, or AC_ERR_NOARG at the end. */
  function GetString(c: Cursor): (r: Got<string>)
    ensures r.Got? <==> !IsAtEnd(c)
    ensures r.Got? ==> r.value == Current(c) && r.rest == Advance(c, 1)
    ensures r.Failed? ==> r.status == AcErrNoArg
  {
    if IsAtEnd(c) then Failed(AcErrNoArg) else Got(Current(c), Advance(c, 1))
  }

  predicate MeetsFlags(v: int, fl: IntFlags) {
    match fl
    case AnyValue => true
    case GE0 => v >= 0
    case GE1 => v >= 1
  }

  /** The common numeric reader: a decimal token within [lo, hi] that
      meets the lower-bound flag. */
  function GetInteger(c: Cursor, lo: int, hi: int, fl: IntFlags): (r: Got<int>)
    ensures r.Got? <==> !IsAtEnd(c) && ParseInt(Current(c)).Some?
                        && lo <= ParseInt(Current(c)).value <= hi
                        && MeetsFlags(ParseInt(Current(c)).value, fl)
    ensures r.Got? ==> r.value == ParseInt(Current(c)).value && r.rest == Advance(c, 1)
    ensures r.Failed? && !IsAtEnd(c) && ParseInt(Current(c)).Some? ==> r.status == AcErrElimit
    ensures r.Failed? && (IsAtEnd(c) || ParseInt(Current(c)).None?) ==> r.status != AcErrElimit
  {
    if IsAtEnd(c) then Failed(AcErrNoArg)
    else match ParseInt(Current(c))
      case None => Failed(AcErrParse)
      case Some(v) =>
        if v < lo || v > hi || !MeetsFlags(v, fl) then Failed(AcErrElimit)
        else Got(v, Advance(c, 1))
  }

  /** AC_GetUnsigned (an `unsigned int`). */
  function GetUnsigned(c: Cursor, fl: IntFlags): (r: Got<nat>)
    ensures r.Got? ==> !IsAtEnd(c) && ParseInt(Current(c)) == Some(r.value as int)
    ensures r.Got? ==> r.value <= UINT_MAX && MeetsFlags(r.value, fl) && r.rest == Advance(c, 1)
  {
    match GetInteger(c, 0, UINT_MAX, fl)
    case Got(v, rest) => Got(v, rest)
    case Failed(st) => Failed(st)
  }

  /** AC_GetU64 (a `uint64_t`). */
  function GetU64(c: Cursor, fl: IntFlags): (r: Got<nat>)
    ensures r.Got? ==> !IsAtEnd(c) && ParseInt(Current(c)) == Some(r.value as int)
    ensures r.Got? ==> r.value <= U64_MAX && MeetsFlags(r.value, fl) && r.rest == Advance(c, 1)
  {
    match GetInteger(c, 0, U64_MAX, fl)
    case Got(v, rest) => Got(v, rest)
    case Failed(st) => Failed(st)
  }

  /** AC_GetLongLong (a `long long`). */
  function GetLongLong(c: Cursor, fl: IntFlags): (r: Got<int>)
    ensures r.Got? ==> LLONG_MIN <= r.value <= LLONG_MAX && MeetsFlags(r.value, fl)
  {
    GetInteger(c, LLONG_MIN, LLONG_MAX, fl)
  }

  /** AC_GetVarArgs: a count n followed by n tokens, handed out as a
      cursor of their own; fewer than n tokens left is AC_ERR_NOARG. */
  function GetVarArgs(c: Cursor): (r: Got<Cursor>)
    ensures r.Got? ==> !IsAtEnd(c) && ParseInt(Current(c)) == Some(|r.value.objs|)
    ensures r.Got? ==> r.value.offset == 0 && |r.value.objs| < NumRemaining(c)
    ensures r.Got? ==> r.value.objs == c.objs[c.offset + 1..c.offset + 1 + |r.value.objs|]
    ensures r.Got? ==> r.rest == Advance(c, 1 + |r.value.objs|)
  {
    match GetUnsigned(c, AnyValue)
    case Failed(st) => Failed(st)
    case Got(n, rest) =>
      if n > NumRemaining(rest) then Failed(AcErrNoArg)
      else Got(Init(c.objs[c.offset + 1..c.offset + 1 + n]), Advance(c, 1 + n))
  }

  /** AC_GetSlice: the next n tokens as a cursor of their own. */
  function GetSlice(c: Cursor, n: nat): (r: (Cursor, Cursor))
    requires n <= NumRemaining(c)
    ensures r.0.offset == 0 && r.0.objs == c.objs[c.offset..c.offset + n]
    ensures r.1 == Advance(c, n)
  {
    (Init(c.objs[c.offset..c.offset + n]), Advance(c, n))
  }

  /** A count followed by that many tokens is read as those tokens. */
  lemma GetVarArgsOfCount(objs: seq<string>, off: nat, n: nat)
    requires off + 1 + n <= |objs| && n <= UINT_MAX && ParseInt(objs[off]) == Some(n)
    ensures GetVarArgs(ArgsCursor(objs, off)) == Got(Init(objs[off + 1..off + 1 + n]), ArgsCursor(objs, off + 1 + n))
  {
  }
}
