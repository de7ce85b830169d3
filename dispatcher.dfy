/**
 * The `Dispatcher` scene object of the CreatureSimulation project: the lookup
 * of a `-flag value` pair on the command line, and the dispatcher's settings.
 */
module DispatcherArgs {
  import opened Wrappers

  /** `Array.IndexOf`: the first position of `x` in `xs`, or -1. */
  function FirstIndex(xs: seq<string>, x: string): (r: int)
    ensures -1 <= r < |xs|
    ensures r == -1 <==> x !in xs
    ensures r >= 0 ==> xs[r] == x && x !in xs[..r]
  {
    if |xs| == 0 then -1
    else if xs[0] == x then 0
    else
      var r := FirstIndex(xs[1..], x);
      assert r >= 0 ==> xs[1..][..r] == xs[1..r + 1];
      if r < 0 then -1 else r + 1
  }

  function MissingAtEnd(arg: string): string {
    "Missing value for command line argument " + arg + " at the end of the arguments list."
  }

  function MissingValue(arg: string): string {
    "Missing value for command line argument " + arg + "."
  }

  /** `GetCommandLineArgumentValue`: the argument after the first occurrence
      of the flag; `None` (null) for an absent flag, an exception for a flag
      at the end or one followed by another flag. */
  function GetCommandLineArgumentValue(args: seq<string>, arg: string): Result<Option<string>, string> {
    var i := FirstIndex(args, arg);
    if i < 0 then Success(None)
    else if i + 1 >= |args| then Failure(MissingAtEnd(arg))
    else if |args[i + 1]| > 0 && args[i + 1][0] == '-' then Failure(MissingValue(arg))
    else Success(Some(args[i + 1]))
  }

  /** The four outcomes, in terms of the argument list's shape. */
  lemma {:induction false} ArgumentLookup(pre: seq<string>, arg: string, post: seq<string>)
    requires arg !in pre
    ensures GetCommandLineArgumentValue(pre, arg) == Success(None)
    ensures post == [] ==> GetCommandLineArgumentValue(pre + [arg] + post, arg) == Failure(MissingAtEnd(arg))
    ensures post != [] && |post[0]| > 0 && post[0][0] == '-' ==>
      GetCommandLineArgumentValue(pre + [arg] + post, arg) == Failure(MissingValue(arg))
    ensures post != [] && (|post[0]| == 0 || post[0][0] != '-') ==>
      GetCommandLineArgumentValue(pre + [arg] + post, arg) == Success(Some(post[0]))
  {
    var args := pre + [arg] + post;
    FirstIndexAfter(pre, arg, post);
    if post != [] {
      assert args[|pre| + 1] == post[0];
    }
  }

  lemma {:induction false} FirstIndexAfter(pre: seq<string>, x: string, post: seq<string>)
    requires x !in pre
    ensures FirstIndex(pre + [x] + post, x) == |pre|
  {
    assert (pre + [x] + post)[|pre|] == x;
  }

  /** `DispatcherSettings.SettingNameToField`. */
  function SettingNameToField(settingName: string): Option<string> {
    if settingName == "flush_every_creature" then Some("flushEveryCreature") else None
  }

  class DispatcherSettings {
    var flushEveryCreature: bool

    constructor ()
      ensures !flushEveryCreature
    {
      flushEveryCreature := false;
    }

    /** `SetSetting` looks the field name up and assigns nothing. */
    method SetSetting(settingName: string, value: string) returns (fieldName: Option<string>)
      ensures fieldName.Some? <==> settingName == "flush_every_creature"
      ensures fieldName.Some? ==> fieldName.value == "flushEveryCreature"
    {
      fieldName := SettingNameToField(settingName);
    }
  }
}
