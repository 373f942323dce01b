/** Helpers shared by the chat and composer loggers: the preview truncation
    (`truncateMessage` in src/lib/logger/chat-logger.ts and `truncateString`
    in src/lib/logger/composer-logger.ts are the same rule) and the
    `x?.length` reads. */
module LogText {
  import opened Wrappers
  import opened Strings
  import opened Json

  /** Truncation of a string to `maxLength` characters plus `...`; the empty
      string has `No content`. */
  function Truncate(s: string, maxLength: nat): (r: string)
    ensures s == "" ==> r == "No content"
    ensures s != "" && |s| <= maxLength ==> r == s
    ensures |s| > maxLength ==> r == s[..maxLength] + "..."
  {
    if s == "" then "No content"
    else if |s| <= maxLength then s
    else s[..maxLength] + "..."
  }

  /** A truncated preview is never longer than `maxLength` plus the three
      dots (or the `No content` text), and it starts with the text's first
      `maxLength` characters. */
  lemma TruncateBounds(s: string, maxLength: nat)
    ensures Truncate(s, maxLength) == "No content" || |Truncate(s, maxLength)| <= maxLength + 3
    ensures s != "" ==> StartsWith(Truncate(s, maxLength), Prefix(s, maxLength))
    ensures |s| > maxLength ==> EndsWith(Truncate(s, maxLength), "...") && |Truncate(s, maxLength)| == maxLength + 3
  {
    var r := Truncate(s, maxLength);
    if |s| > maxLength {
      assert r[..maxLength] == s[..maxLength];
      assert r[|r| - 3..] == "...";
    }
  }

  /** Truncating twice changes nothing more once the text fits. */
  lemma TruncateFits(s: string, maxLength: nat)
    requires s != "" && |s| <= maxLength
    ensures Truncate(Truncate(s, maxLength), maxLength) == s
  {
  }

  /** `v.length` compared as a number: the length of a string or array, an
      object's own numeric `length` property, and `None` (`undefined`) for
      the rest. */
  function NumericLength(v: Value): (n: Option<int>)
    ensures v.Str? ==> n == Some(|v.s|)
    ensures v.Arr? ==> n == Some(|v.items|)
    ensures v.Undefined? || v.Null? || v.Bool? || v.Num? ==> n == None
  {
    match v
    case Str(s) => Some(|s|)
    case Arr(items) => Some(|items|)
    case Obj(ms) => if Get(ms, "length").Num? then Some(Get(ms, "length").n) else None
    case ErrorObj(_, _, _, own) => if Get(own, "length").Num? then Some(Get(own, "length").n) else None
    case _ => None
  }

  /** `v?.length || 0` */
  function LengthOrZero(v: Value): (n: int)
    ensures v.Str? ==> n == |v.s|
    ensures v.Arr? ==> n == |v.items|
    ensures v.Undefined? || v.Null? ==> n == 0
  {
    if NumericLength(v).Some? then NumericLength(v).value else 0
  }

  /** `truncate(v, maxLength)` applied to whatever value it is given: a falsy
      value has `No content`, a value whose length fits is returned as it is,
      and a longer string is cut; anything else reaches `substring`, which
      only strings have. */
  function TruncateValue(v: Value, maxLength: nat): (r: Outcome<Value>)
    ensures v.Str? ==> r == Returns(Str(Truncate(v.s, maxLength)))
    ensures !Truthy(v) ==> r == Returns(Str("No content"))
    ensures r.Throws? ==> Truthy(v) && !v.Str?
  {
    if !Truthy(v) then Returns(Str("No content"))
    else if NumericLength(v).Some? && NumericLength(v).value <= maxLength then Returns(v)
    else if v.Str? then Returns(Str(v.s[..maxLength] + "..."))
    else Throws
  }
}
