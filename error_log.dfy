/**
 * The log line the gateway writes for a vendor error.
 *
 * `write_error(msg, error)` reads the "ErrorID" and "ErrorMsg" entries of the
 * error dictionary (in that order, so a missing "ErrorID" is reported first)
 * and logs `msg`, the tag "，代码：", the code, the tag "，信息：" and the text.
 * `ParseErrorLine` reads such a line back; the round-trip lemmas show that it
 * inverts the format exactly on reports whose message and code contain no
 * full-width comma, the character that opens each tag.
 */
module ErrorLog {
  import opened Wrappers

  /** Tag placed between the caller's message and the error code. */
  const CodeTag: string := "，代码："
  /** Tag placed between the error code and the error text. */
  const InfoTag: string := "，信息："
  /** The full-width comma that opens both tags. */
  const Separator: char := '，'

  /** Outcome of a dictionary lookup: the value, or the key that raised `KeyError`. */
  datatype Lookup<T> = Found(value: T) | KeyError(key: string)

  /** The three parts of an error log line. */
  datatype ErrorFields = ErrorFields(msg: string, errorId: string, errorMsg: string)

  /** The formatted line: message, code tag, code, info tag, text. */
  function ErrorLine(msg: string, errorId: string, errorMsg: string): (r: string)
    ensures |r| == |msg| + |CodeTag| + |errorId| + |InfoTag| + |errorMsg|
    ensures msg <= r
    ensures r[|msg|..|msg| + |CodeTag|] == CodeTag
    ensures r[|r| - |errorMsg|..] == errorMsg
  {
    msg + CodeTag + errorId + InfoTag + errorMsg
  }

  /** `write_error`'s message for `error`, or the first key it lacks. */
  function FormatError(msg: string, error: map<string, string>): (r: Lookup<string>)
    ensures r.Found? <==> "ErrorID" in error && "ErrorMsg" in error
    ensures "ErrorID" !in error ==> r == KeyError("ErrorID")
    ensures "ErrorID" in error && "ErrorMsg" !in error ==> r == KeyError("ErrorMsg")
    ensures r.Found? ==> r.value == ErrorLine(msg, error["ErrorID"], error["ErrorMsg"])
  {
    if "ErrorID" !in error then KeyError("ErrorID")
    else if "ErrorMsg" !in error then KeyError("ErrorMsg")
    else Found(ErrorLine(msg, error["ErrorID"], error["ErrorMsg"]))
  }

  /** Index of the first occurrence of `c` in `s`, or `|s|` when there is none. */
  function IndexOf(s: string, c: char): (r: nat)
    ensures r <= |s|
    ensures r < |s| ==> s[r] == c
    ensures r == |s| ==> c !in s
    ensures forall k :: 0 <= k < r ==> s[k] != c
  {
    if s == [] then 0
    else if s[0] == c then 0
    else 1 + IndexOf(s[1..], c)
  }

  /** Splits `s` around `tag` when `tag` starts at the first separator of `s`. */
  function SplitTag(s: string, tag: string): (r: Option<(string, string)>)
  {
    var i := IndexOf(s, Separator);
    if tag <= s[i..] then Some((s[..i], s[i + |tag|..])) else None
  }

  /** Splits a line at its first code tag and then at the first info tag after it. */
  function ParseErrorLine(s: string): (r: Option<ErrorFields>)
  {
    match SplitTag(s, CodeTag)
    case None => None
    case Some((msg, rest)) =>
      match SplitTag(rest, InfoTag)
      case None => None
      case Some((errorId, errorMsg)) => Some(ErrorFields(msg, errorId, errorMsg))
  }

  /** In `a + b`, the first `c` is the head of `b` when `a` holds no `c`. */
  lemma IndexOfAfter(a: string, b: string, c: char)
    requires c !in a && |b| > 0 && b[0] == c
    ensures IndexOf(a + b, c) == |a|
  {
    assert (a + b)[|a|] == c;
  }

  /** A separator-free prefix followed by a tag splits back into the prefix and the rest. */
  lemma SplitTagJoin(a: string, tag: string, b: string)
    requires Separator !in a && |tag| > 0 && tag[0] == Separator
    ensures SplitTag(a + tag + b, tag) == Some((a, b))
  {
    var s := a + tag + b;
    assert s == a + (tag + b);
    IndexOfAfter(a, tag + b, Separator);
    assert s[..|a|] == a;
    assert s[|a|..] == tag + b;
    assert s[|a| + |tag|..] == b;
  }

  /** A successful split gives a separator-free prefix, and the parts rejoin to the input. */
  lemma SplitTagSound(s: string, tag: string)
    requires SplitTag(s, tag).Some?
    ensures var (a, b) := SplitTag(s, tag).value;
      Separator !in a && s == a + tag + b
  {
    var i := IndexOf(s, Separator);
    var a, b := s[..i], s[i + |tag|..];
    assert Separator !in a by {
      forall k | 0 <= k < i
        ensures a[k] != Separator
      {
      }
    }
    assert s[..i + |tag|] == a + tag;
    assert s == s[..i + |tag|] + b;
  }

  /** Parsing recovers the three parts of every line whose message and code hold no separator. */
  lemma ParseErrorLineRoundTrip(msg: string, errorId: string, errorMsg: string)
    requires Separator !in msg && Separator !in errorId
    ensures ParseErrorLine(ErrorLine(msg, errorId, errorMsg)) == Some(ErrorFields(msg, errorId, errorMsg))
  {
    var rest := errorId + InfoTag + errorMsg;
    assert ErrorLine(msg, errorId, errorMsg) == msg + CodeTag + rest by {
      assert msg + CodeTag + (errorId + InfoTag + errorMsg)
        == msg + CodeTag + (errorId + InfoTag) + errorMsg;
      assert msg + CodeTag + (errorId + InfoTag) == msg + CodeTag + errorId + InfoTag;
    }
    SplitTagJoin(msg, CodeTag, rest);
    SplitTagJoin(errorId, InfoTag, errorMsg);
  }

  /** Conversely, a line that parses is exactly the formatted line of its separator-free parts. */
  lemma ParseErrorLineSound(s: string)
    requires ParseErrorLine(s).Some?
    ensures var f := ParseErrorLine(s).value;
      Separator !in f.msg && Separator !in f.errorId &&
      s == ErrorLine(f.msg, f.errorId, f.errorMsg)
  {
    var (msg, rest) := SplitTag(s, CodeTag).value;
    var (errorId, errorMsg) := SplitTag(rest, InfoTag).value;
    SplitTagSound(s, CodeTag);
    SplitTagSound(rest, InfoTag);
    assert s == msg + CodeTag + (errorId + InfoTag + errorMsg);
    assert msg + CodeTag + (errorId + InfoTag + errorMsg)
      == msg + CodeTag + (errorId + InfoTag) + errorMsg;
    assert msg + CodeTag + (errorId + InfoTag) == msg + CodeTag + errorId + InfoTag;
  }

  /**
   * Neither half of the round-trip condition can be dropped. In the first
   * pair both codes are separator-free and two different reports still give
   * the same line; in the second pair both messages are separator-free.
   */
  lemma ErrorLineAmbiguousWithSeparator()
    ensures ErrorLine("下单失败，代码：1，信息：2", "3", "拒绝") == ErrorLine("下单失败", "1", "2，代码：3，信息：拒绝")
    ensures ErrorLine("下单失败", "1，信息：2", "拒绝") == ErrorLine("下单失败", "1", "2，信息：拒绝")
  {
  }
}
