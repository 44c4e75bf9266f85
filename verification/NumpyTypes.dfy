/** Array element types by the names of numpy's array protocol, such as `<f4`. */
module NumpyTypes {
  import opened Common

  /** `Structured` types share the name of raw bytes of their size; `Timed` ones carry a
      unit; `Objects` are references. */
  datatype ArrayType =
    | Basic(order: char, kind: char, width: nat)
    | Timed(order: char, kind: char, unit: string)
    | Structured(size: nat)
    | Objects

  predicate Ordered(order: char) {
    order == '<' || order == '>'
  }

  /** The types numpy has. Booleans, byte strings, raw bytes and single bytes have no byte
      order. */
  predicate Exists(t: ArrayType) {
    match t
    case Basic(order, kind, width) =>
      if kind == 'b' then order == '|' && width == 1
      else if kind == 'i' || kind == 'u' then
        if width == 1 then order == '|' else Ordered(order) && (width == 2 || width == 4 || width == 8)
      else if kind == 'f' then Ordered(order) && (width == 2 || width == 4 || width == 8 || width == 12 || width == 16)
      else if kind == 'c' then Ordered(order) && (width == 8 || width == 16 || width == 24 || width == 32)
      else if kind == 'U' then Ordered(order)
      else (kind == 'S' || kind == 'V') && order == '|'
    case Timed(order, kind, unit) => Ordered(order) && (kind == 'M' || kind == 'm')
    case Structured(_) => true
    case Objects => true
  }

  type NumpyType = t: ArrayType | Exists(t) witness Objects

  /** Bytes of one element; none for references, which are not data. */
  function ItemSize(t: NumpyType): Option<nat> {
    match t
    case Basic(_, kind, width) => Some(if kind == 'U' then 4 * width else width)
    case Timed(_, _, _) => Some(8)
    case Structured(size) => Some(size)
    case Objects => None
  }

  // ---------------------------------------------------------------- decimals

  function Digit(n: nat): char
    requires n < 10
  {
    ('0' as int + n) as char
  }

  function Decimal(n: nat): (s: string)
    ensures s != ""
  {
    if n < 10 then [Digit(n)] else Decimal(n / 10) + [Digit(n % 10)]
  }

  /** None for anything but decimal digits. */
  function Number(s: string): Option<nat> {
    if s == "" then None
    else
      var last := s[|s| - 1];
      if !('0' <= last <= '9') then None
      else if |s| == 1 then Some(last as int - '0' as int)
      else
        var front := Number(s[..|s| - 1]);
        if front.None? then None else Some(front.value * 10 + (last as int - '0' as int))
  }

  lemma {:induction false} DecimalReadsBack(n: nat)
    ensures Number(Decimal(n)) == Some(n)
  {
    if n >= 10 {
      DecimalReadsBack(n / 10);
      var s := Decimal(n);
      assert s[..|s| - 1] == Decimal(n / 10);
    }
  }

  // ---------------------------------------------------------------- names

  function Name(t: NumpyType): string {
    match t
    case Basic(order, kind, width) => [order, kind] + Decimal(width)
    case Timed(order, kind, unit) => [order, kind, '8'] + unit
    case Structured(size) => ['|', 'V'] + Decimal(size)
    case Objects => ['|', 'O']
  }

  /** The type a name stands for; None stands for numpy's error. */
  function ByName(name: string): Option<NumpyType> {
    if |name| < 2 then None
    else if name == ['|', 'O'] then Some(Objects)
    else if name[1] == 'M' || name[1] == 'm' then
      if |name| > 2 && name[2] == '8' && Ordered(name[0]) then Some(Timed(name[0], name[1], name[3..])) else None
    else
      var width := Number(name[2..]);
      if width.Some? && Exists(Basic(name[0], name[1], width.value))
      then Some(Basic(name[0], name[1], width.value))
      else None
  }

  /** A type is found again by its name, a structured one as the raw bytes it lays out. */
  lemma NameReadsBack(t: NumpyType)
    ensures ByName(Name(t)) == Some(if t.Structured? then Basic('|', 'V', t.size) else t)
  {
    match t
    case Basic(order, kind, width) =>
      DecimalReadsBack(width);
      assert Name(t)[2..] == Decimal(width);
    case Timed(_, _, unit) => assert Name(t)[3..] == unit;
    case Structured(size) =>
      DecimalReadsBack(size);
      assert Name(t)[2..] == Decimal(size);
    case Objects =>
  }

  predicate Sized(name: string, size: Option<nat>) {
    ByName(name).Some? && ItemSize(ByName(name).value) == size
  }

  /** How many bytes an element takes, by its name: text takes four a character, a date or a
      duration eight, and a reference is no data. */
  lemma KnownSizes(width: nat)
    requires width > 0
    ensures forall order | Ordered(order) ::
              && Sized([order, 'U'] + Decimal(width), Some(4 * width))
              && forall unit: string :: Sized([order, 'M', '8'] + unit, Some(8))
    ensures Sized(['|', 'S'] + Decimal(width), Some(width)) && Sized("|O", None)
  {
    forall order | Ordered(order)
      ensures Sized([order, 'U'] + Decimal(width), Some(4 * width))
      ensures forall unit: string :: Sized([order, 'M', '8'] + unit, Some(8))
    {
      NameReadsBack(Basic(order, 'U', width));
      forall unit: string {
        NameReadsBack(Timed(order, 'M', unit));
      }
    }
    NameReadsBack(Basic('|', 'S', width));
  }
}
