/** Values shared by the comment model: optional values and failures, users and
    like rows, and the loosely typed hashes an event payload is built from. */
module Values {

  datatype Option<T> = None | Some(value: T)

  datatype Result<T, E> = Success(value: T) | Failure(error: E)

  type UserId = int

  /** A user as the comment logic sees one: id, handle (the column may be
      nil) and current score. */
  datatype User = User(id: UserId, username: Option<string>, score: int)

  /** A like row on a comment: who liked it and the score snapshot taken then. */
  datatype Like = Like(userId: UserId, value: int)

  /** A value inside a Ruby hash: nil, an integer (timestamps are already epoch
      seconds here), a string, or a nested hash keyed by symbol name. */
  datatype Value = Nil | Num(n: int) | Str(s: string) | Obj(fields: map<string, Value>)

  type Hash = map<string, Value>

  /** An optional string as a hash value: nil when there is none. */
  function NameValue(n: Option<string>): Value
  {
    if n.Some? then Str(n.value) else Nil
  }

  /** `h[k]`: a missing key reads as nil. */
  function Fetch(h: Hash, k: string): Value
  {
    if k in h then h[k] else Nil
  }

  predicate IsDigit(c: char)
  {
    '0' <= c <= '9'
  }

  /** The longest prefix of `s` made of decimal digits. */
  function DigitPrefix(s: string): (d: string)
    ensures d <= s
    ensures forall k :: 0 <= k < |d| ==> IsDigit(d[k])
    ensures |d| == |s| || !IsDigit(s[|d|])
  {
    if s != [] && IsDigit(s[0]) then [s[0]] + DigitPrefix(s[1..]) else []
  }

  /** The number a string of decimal digits spells. */
  function DigitsValue(d: string): nat
    requires forall k :: 0 <= k < |d| ==> IsDigit(d[k])
  {
    if d == [] then 0
    else
      assert IsDigit(d[|d| - 1]);
      10 * DigitsValue(d[..|d| - 1]) + (d[|d| - 1] as int - '0' as int)
  }

  /** `String#to_i`: an optional sign followed by the leading decimal digits;
      no digits give 0. */
  function LeadingInt(s: string): int
  {
    if s != [] && s[0] == '-' then 0 - DigitsValue(DigitPrefix(s[1..]))
    else if s != [] && s[0] == '+' then DigitsValue(DigitPrefix(s[1..]))
    else DigitsValue(DigitPrefix(s))
  }

  /** `v.to_i`. None stands for a value without `to_i` (a Hash), on which Ruby
      raises NoMethodError. */
  function ToI(v: Value): Option<int>
  {
    match v
    case Nil => Some(0)
    case Num(n) => Some(n)
    case Str(s) => Some(LeadingInt(s))
    case Obj(_) => None
  }
}
