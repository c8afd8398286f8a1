/** Shared vocabulary of both trackers: optional values, the outcome of an
    HTTP fetch, what the chat platform does during a tick, and the text
    helpers the renderers use (decimal numbers, joining lines). */
module Common {

  datatype Option<T> = None | Some(value: T)

  /** The result of one request to the game-status API: the parsed JSON
      payload, or the exception a failed request (non-2xx status, network
      error) throws. */
  datatype Fetch<T> = Fetched(payload: T) | FetchError

  /** Identifier of a chat channel (a snowflake string). */
  type ChannelId = string

  /** Opaque handle on a message the bot has posted. */
  type MessageRef = nat

  /** What the chat platform does during one tick: whether editing the
      tracked message succeeds, and how many alert posts succeed before one
      throws (None: every post succeeds). */
  datatype ChannelIO = ChannelIO(editSucceeds: bool, postsBeforeFailure: Option<nat>)

  /** True when the platform lets one more alert post succeed after `sent`
      successful ones. */
  predicate CanPost(io: ChannelIO, sent: nat) {
    io.postsBeforeFailure.None? || sent < io.postsBeforeFailure.value
  }

  /** True when every alert of `due` gets posted. */
  predicate AllPosted<A>(due: seq<A>, io: ChannelIO) {
    io.postsBeforeFailure.None? || |due| <= io.postsBeforeFailure.value
  }

  /** The alerts of `due` that reach the channel: posting stops at the first
      post that throws. */
  function Posted<A>(due: seq<A>, io: ChannelIO): (r: seq<A>)
    ensures r <= due
    ensures r == due <==> AllPosted(due, io)
  {
    if AllPosted(due, io) then due else due[..io.postsBeforeFailure.value]
  }

  /** One field of a rich-embed message. */
  datatype EmbedField = EmbedField(name: string, value: string, inline: bool)

  /** The text content of a rich-embed message (colour and timestamp are
      not modelled). */
  datatype Embed = Embed(title: string, description: string, fields: seq<EmbedField>)

  /** What one tick of a tracker produces: the embed the tracked message
      now shows (None when the fetch or the edit threw), the alerts that were
      posted, and the per-channel previous-state store afterwards. */
  datatype TickResult<A, S> = TickResult(shown: Option<Embed>, posted: seq<A>, states: map<ChannelId, S>)

  // ---------------------------------------------------------------------
  // Decimal rendering of integers (template-literal interpolation)

  predicate IsDigit(c: char) {
    '0' <= c <= '9'
  }

  predicate AllDigits(s: string) {
    forall i :: 0 <= i < |s| ==> IsDigit(s[i])
  }

  function DigitChar(d: nat): (c: char)
    requires d < 10
    ensures IsDigit(c) && c as int - '0' as int == d
  {
    ('0' as int + d) as char
  }

  /** The decimal digits of `n`, most significant first, without leading zeros. */
  function NatDigits(n: nat): (s: string)
    ensures |s| > 0 && AllDigits(s)
    decreases n
  {
    if n < 10 then [DigitChar(n)] else NatDigits(n / 10) + [DigitChar(n % 10)]
  }

  /** How an integer is interpolated into a message: optional minus sign and
      decimal digits. */
  function Decimal(n: int): (s: string)
    ensures |s| > 0
    ensures forall i :: 0 <= i < |s| ==> IsDigit(s[i]) || s[i] == '-'
  {
    if n < 0 then "-" + NatDigits(-n) else NatDigits(n)
  }

  /** The value of a string of decimal digits. */
  function DigitsValue(s: string): nat
    requires AllDigits(s)
  {
    if s == [] then 0
    else DigitsValue(s[..|s| - 1]) * 10 + (s[|s| - 1] as int - '0' as int)
  }

  /** Reads back what `Decimal` writes; None for anything else. */
  function ParseDecimal(s: string): Option<int> {
    if |s| > 1 && s[0] == '-' && AllDigits(s[1..]) then Some(-(DigitsValue(s[1..]) as int))
    else if |s| > 0 && AllDigits(s) then Some(DigitsValue(s))
    else None
  }

  lemma {:induction false} NatDigitsValue(n: nat)
    ensures DigitsValue(NatDigits(n)) == n
    decreases n
  {
    if n >= 10 {
      var s := NatDigits(n);
      NatDigitsValue(n / 10);
      assert s[..|s| - 1] == NatDigits(n / 10);
    }
  }

  /** Rendering a number and reading it back gives the number: the rendered
      digits denote exactly the value. */
  lemma DecimalRoundTrip(n: int)
    ensures ParseDecimal(Decimal(n)) == Some(n)
  {
    if n < 0 {
      var s := Decimal(n);
      assert s[1..] == NatDigits(-n);
      NatDigitsValue(-n);
    } else {
      NatDigitsValue(n);
    }
  }

  // ---------------------------------------------------------------------
  // Joining lines (Array.prototype.join) and its inverse

  /** `parts.join(sep)`. */
  function Join(parts: seq<string>, sep: char): (s: string)
    ensures |parts| > 0 && |parts[0]| > 0 ==> |s| > 0
  {
    if |parts| == 0 then ""
    else if |parts| == 1 then parts[0]
    else parts[0] + [sep] + Join(parts[1..], sep)
  }

  /** The position of the first `sep` in `s`. */
  function IndexOf(s: string, sep: char): (i: nat)
    requires sep in s
    ensures i < |s| && s[i] == sep && sep !in s[..i]
  {
    if s[0] == sep then 0 else 1 + IndexOf(s[1..], sep)
  }

  /** `s.split(sep)`: the pieces between separators, always at least one. */
  function Split(s: string, sep: char): (parts: seq<string>)
    ensures |parts| > 0
    decreases |s|
  {
    if sep !in s then [s]
    else
      var i := IndexOf(s, sep);
      [s[..i]] + Split(s[i + 1..], sep)
  }

  /** The joined string starts with the first part. */
  lemma JoinStartsWithFirst(parts: seq<string>, sep: char)
    requires |parts| > 0
    ensures |parts[0]| <= |Join(parts, sep)| && Join(parts, sep)[..|parts[0]|] == parts[0]
  {
    if |parts| > 1 {
      var s := parts[0] + [sep] + Join(parts[1..], sep);
      assert s[..|parts[0]|] == parts[0];
    }
  }

  /** Splitting the joined lines at the separator gives back the lines, as
      long as no line holds the separator itself. */
  lemma {:induction false} SplitJoin(parts: seq<string>, sep: char)
    requires |parts| > 0
    requires forall k :: 0 <= k < |parts| ==> sep !in parts[k]
    ensures Split(Join(parts, sep), sep) == parts
  {
    if |parts| > 1 {
      var rest := Join(parts[1..], sep);
      var s := parts[0] + [sep] + rest;
      assert sep !in parts[0];
      assert s[|parts[0]|] == sep;
      assert sep in s;
      var i := IndexOf(s, sep);
      assert i == |parts[0]|;
      assert s[..i] == parts[0];
      assert s[i + 1..] == rest;
      SplitJoin(parts[1..], sep);
      assert parts == [parts[0]] + parts[1..];
    }
  }
}
