/** The console's `use <n>` command: choosing the guild the other commands act on. */
module Console {
  import opened Wrappers
  import opened JsText

  /** What `use` does with its argument: a usage message, a rejection, a selection, or a thrown TypeError. */
  datatype UseResult = Usage | Invalid | Select(index: nat) | TypeError

  /**
   * `use <n>` as written: `num < 1 || num > arr.length` rejects, but both
   * comparisons are false when num is NaN, so NaN gets through and
   * `arr[NaN - 1][0]` throws.
   */
  function UseAsWritten(arg: string, count: nat): (u: UseResult)
    ensures u.Select? ==> u.index < count
    ensures u == TypeError <==> arg != "" && ParseInt(arg).None?
  {
    if arg == "" then Usage
    else
      match ParseInt(arg)
      case None => TypeError
      case Some(num) => if num < 1 || num > count then Invalid else Select(num - 1)
  }

  /** `use <n>` as intended: the n-th guild when n is a number from 1 to the number of guilds. */
  function UseCommand(arg: string, count: nat): (u: UseResult)
    ensures u != TypeError
    ensures u.Select? <==> arg != "" && ParseInt(arg).Some? && 1 <= ParseInt(arg).value <= count
    ensures u.Select? ==> u.index < count && u.index == ParseInt(arg).value - 1
    ensures u == Usage <==> arg == ""
  {
    if arg == "" then Usage
    else
      match ParseInt(arg)
      case None => Invalid
      case Some(num) => if num < 1 || num > count then Invalid else Select(num - 1)
  }

  /** `use abc` passes the guard as written and throws; the intended command rejects it. */
  lemma UseNaNThrows(count: nat)
    ensures UseAsWritten("abc", count) == TypeError
    ensures UseCommand("abc", count) == Invalid
  {
    assert TrimStart("abc") == "abc";
    assert DigitRun("abc", 10) == 0;
  }

  /** On every argument that is a number the two agree. */
  lemma UseAgreesOnNumbers(arg: string, count: nat)
    requires ParseInt(arg).Some?
    ensures UseAsWritten(arg, count) == UseCommand(arg, count)
  {
  }

  /** `args.join(' ')`. */
  function Join(words: seq<string>): (s: string)
    ensures |words| == 1 ==> s == words[0]
  {
    if words == [] then ""
    else if |words| == 1 then words[0]
    else words[0] + " " + Join(words[1..])
  }

  /** Each further word is added after a single space. */
  lemma {:induction false} JoinSnoc(words: seq<string>, w: string)
    requires |words| >= 1
    ensures Join(words + [w]) == Join(words) + " " + w
  {
    var rest := (words + [w])[1..];
    if |words| == 1 {
      assert rest == [w];
    } else {
      assert rest == words[1..] + [w];
      JoinSnoc(words[1..], w);
    }
  }
}
