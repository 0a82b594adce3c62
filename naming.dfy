/** The squad channel-name formula of SquadView.create_squad_channel. */
module Naming {
  import opened Settings
  import opened Text

  /** The `name_suffix` table read with `.get(size, '')`: size 4 and every size outside 1..4 get no suffix. */
  function SquadSuffix(size: int): (r: string)
    ensures r == [] <==> !(1 <= size <= 3)
    ensures r != [] ==> r[0] == '(' && r[|r| - 1] == ')'
  {
    if size == 1 then "(Solo)"
    else if size == 2 then "(Duo)"
    else if size == 3 then "(Trio)"
    else ""
  }

  /**
   * The squad channel name: the prefix, then a space and the suffix when
   * there is one. SquadChannelNameIsFormula proves this is exactly
   * `f"{CHANNEL_PREFIX} {suffix}".strip()`.
   */
  function SquadChannelName(size: int): (r: string)
    ensures ChannelPrefix <= r
    ensures r == ChannelPrefix <==> !(1 <= size <= 3)
  {
    var suffix := SquadSuffix(size);
    if suffix == [] then ChannelPrefix else ChannelPrefix + " " + suffix
  }

  /**
   * The formula of the source: joining prefix and suffix with a space and
   * stripping the result gives SquadChannelName; the strip only ever removes
   * the space an empty suffix leaves at the end.
   */
  lemma SquadChannelNameIsFormula(size: int)
    ensures SquadChannelName(size) == Strip(ChannelPrefix + " " + SquadSuffix(size))
    ensures SquadChannelName(size) != [] && Stripped(SquadChannelName(size))
  {
    var suffix := SquadSuffix(size);
    var raw := ChannelPrefix + " " + suffix;
    if suffix == [] {
      assert raw == [] + ChannelPrefix + " ";
      StripSurrounded([], ChannelPrefix, " ");
    } else {
      assert raw == [] + raw + [];
      StripSurrounded([], raw, []);
    }
  }

  /** The four names the squad buttons produce; size 4 has no trailing space. */
  lemma SquadChannelNames(size: int)
    ensures size == 1 ==> SquadChannelName(size) == "WT Squad (Solo)"
    ensures size == 2 ==> SquadChannelName(size) == "WT Squad (Duo)"
    ensures size == 3 ==> SquadChannelName(size) == "WT Squad (Trio)"
    ensures size == 4 ==> SquadChannelName(size) == "WT Squad"
  {
    if 1 <= size <= 3 {
      assert SquadChannelName(size) == ChannelPrefix + " " + SquadSuffix(size);
    }
  }

  /** The four button sizes give four different names. */
  lemma SquadChannelNamesDistinct(a: int, b: int)
    requires 1 <= a <= 4 && 1 <= b <= 4 && a != b
    ensures SquadChannelName(a) != SquadChannelName(b)
  {
    if a != 4 && b != 4 {
      var sa, sb := SquadSuffix(a), SquadSuffix(b);
      assert (ChannelPrefix + " " + sa)[|ChannelPrefix| + 2] == sa[1];
      assert (ChannelPrefix + " " + sb)[|ChannelPrefix| + 2] == sb[1];
    }
  }
}
