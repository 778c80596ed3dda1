/** The check-mark reaction on an order message in the trader-orders channel: an
    admin's confirmation marks the message and tells the player what to pay. */
module ReactionHandler {
  import opened Wrappers
  import opened Text
  import opened Numerals
  import opened Users

  /** The member who reacted: their id and the ids of their roles. */
  datatype Member = Member(id: UserId, roleIds: seq<int>)

  /** A reaction event: where it was added, its emoji, and the member
      (`None` when the guild does not know them). */
  datatype Reaction = Reaction(channelId: int, emoji: string, member: Option<Member>)

  /** The configured channels and admin roles. */
  datatype Config = Config(traderOrdersChannelId: int, adminRoleIds: seq<int>)

  /** What the handler does. The reaction swap (red-circle removed, check-mark added) comes
      first in every decision but `Ignored`; the failures are the uncaught
      errors that end the handler part way. */
  datatype Decision =
    | Ignored
    | ReactionSwapped
    | FailedAfterSwap
    | FailedAfterEdit(newContent: string)
    | Confirmed(newContent: string, notice: string)

  const ConfirmMark := "\U{2705}"

  /** The member exists and holds one of the admin roles. */
  predicate IsAdmin(member: Option<Member>, adminRoleIds: seq<int>)
  {
    member.Some? && exists i | 0 <= i < |member.value.roleIds| :: member.value.roleIds[i] in adminRoleIds
  }

  /** The message has already been confirmed, as an order or as a payment. */
  predicate AlreadyConfirmed(content: string)
  {
    Contains(content, ConfirmMark + " Confirmed by") || Contains(content, ConfirmMark + " Payment confirmed by")
  }

  /** The event passes every guard and the handler goes on to swap the
      reactions. */
  predicate Handled(cfg: Config, r: Reaction, content: string)
  {
    && r.channelId == cfg.traderOrdersChannelId
    && r.emoji == ConfirmMark
    && IsAdmin(r.member, cfg.adminRoleIds)
    && !AlreadyConfirmed(content)
  }

  /** The player mention: the text after `"Order for "` on the first line,
      without trailing colons; `None` where Python's indexing fails. */
  function PlayerMention(content: string): (r: Option<string>)
    ensures r.Some? ==> |r.value| == 0 || r.value[|r.value| - 1] != ':'
  {
    var lines := SplitLines(content);
    if lines == [] then None
    else
      var parts := Split(lines[0], "Order for ");
      if |parts| < 2 then None else Some(TrimEndChar(parts[1], ':'))
  }

  /** The first line that contains `sub`. */
  function FirstLineWith(lines: seq<string>, sub: string): (r: Option<string>)
    ensures r.Some? ==> r.value in lines && Contains(r.value, sub)
    ensures r.None? <==> forall k :: 0 <= k < |lines| ==> !Contains(lines[k], sub)
    ensures forall k :: (0 <= k < |lines| && Contains(lines[k], sub)
      && (forall j :: 0 <= j < k ==> !Contains(lines[j], sub))
      ==> r == Some(lines[k]))
    decreases |lines|
  {
    if lines == [] then None
    else if Contains(lines[0], sub) then Some(lines[0])
    else
      var r := FirstLineWith(lines[1..], sub);
      assert forall k :: 1 <= k < |lines| ==> lines[k] == lines[1..][k - 1];
      r
  }

  /** The total's text on its line: the markers and the thousands commas
      removed, the surrounding whitespace stripped. */
  function TotalValue(line: string): string
  {
    Strip(Replace(Replace(Replace(line, "**Total: $", ""), "**", ""), ",", ""))
  }

  function ConfirmationBanner(admin: UserId): string
  {
    "\U{2705} Confirmed by " + Mention(admin) + " \U{2014} Order is ready for trader.\nOrder for"
  }

  /** The edited message: the banner in front of every `"Order for"`. */
  function ConfirmedContent(content: string, admin: UserId): string
  {
    Replace(content, "Order for", ConfirmationBanner(admin))
  }

  function ReadyNotice(player: string, admin: UserId, total: int): string
  {
    player + " your trader is ready for pick up! Please pay the trader " + Mention(admin)
    + " ($" + GroupedInt(total) + ") to complete the order!"
  }

  /** `on_raw_reaction_add`, given the message's content and whether the
      economy channel is found. */
  function OnReaction(cfg: Config, r: Reaction, content: string, economyChannelFound: bool): (d: Decision)
    ensures d != Ignored <==> Handled(cfg, r, content)
    ensures d == ReactionSwapped <==> Handled(cfg, r, content) && !StartsWith(content, "Order for")
    ensures d.FailedAfterSwap? <==>
      && Handled(cfg, r, content) && StartsWith(content, "Order for")
      && (PlayerMention(content).None? || FirstLineWith(SplitLines(content), "Total:").None?)
    ensures (d.FailedAfterEdit? || d.Confirmed?) ==>
      && Handled(cfg, r, content) && StartsWith(content, "Order for")
      && d.newContent == ConfirmedContent(content, r.member.value.id)
    ensures d.Confirmed? <==>
      && Handled(cfg, r, content) && StartsWith(content, "Order for")
      && PlayerMention(content).Some?
      && FirstLineWith(SplitLines(content), "Total:").Some?
      && economyChannelFound
      && ParseInt(TotalValue(FirstLineWith(SplitLines(content), "Total:").value)).Some?
    ensures d.Confirmed? ==>
      d.notice == ReadyNotice(PlayerMention(content).value, r.member.value.id,
                              ParseInt(TotalValue(FirstLineWith(SplitLines(content), "Total:").value)).value)
  {
    if r.channelId != cfg.traderOrdersChannelId || r.emoji != ConfirmMark then Ignored
    else if !IsAdmin(r.member, cfg.adminRoleIds) then Ignored
    else if AlreadyConfirmed(content) then Ignored
    else if !StartsWith(content, "Order for") then ReactionSwapped
    else match (PlayerMention(content), FirstLineWith(SplitLines(content), "Total:"))
      case (Some(player), Some(totalLine)) =>
        var admin := r.member.value.id;
        var newContent := ConfirmedContent(content, admin);
        if !economyChannelFound then FailedAfterEdit(newContent)
        else (match ParseInt(TotalValue(totalLine))
              case None => FailedAfterEdit(newContent)
              case Some(total) => Confirmed(newContent, ReadyNotice(player, admin, total)))
      case _ => FailedAfterSwap
  }

  /** What follows the confirmation mark in the banner. */
  function BannerTail(admin: UserId): string
  {
    " " + Mention(admin) + " \U{2014} Order is ready for trader.\nOrder for"
  }

  /** The banner starts with the confirmation mark. */
  lemma BannerStartsWithMark(admin: UserId)
    ensures ConfirmationBanner(admin) == ConfirmMark + " Confirmed by" + BannerTail(admin)
  {
  }

  /** The edited content carries the confirmation mark. */
  lemma {:induction false} ConfirmedContentIsMarked(content: string, admin: UserId)
    requires StartsWith(content, "Order for")
    ensures AlreadyConfirmed(ConfirmedContent(content, admin))
  {
    var tail := BannerTail(admin);
    BannerStartsWithMark(admin);
    assert Contains(content, "Order for") by { assert OccursAt(content, "Order for", 0); }
    ReplaceInsertsPrefix(content, "Order for", ConfirmMark + " Confirmed by", tail);
  }

  /** Once the message is edited, any further reaction on it is ignored,
      so an order is confirmed at most once. */
  lemma {:induction false} RepeatedReactionIgnored(cfg: Config, r: Reaction, content: string, found: bool,
                                again: Reaction, foundAgain: bool)
    requires OnReaction(cfg, r, content, found).FailedAfterEdit? || OnReaction(cfg, r, content, found).Confirmed?
    ensures OnReaction(cfg, again, OnReaction(cfg, r, content, found).newContent, foundAgain) == Ignored
  {
    ConfirmedContentIsMarked(content, r.member.value.id);
  }

  // ------------------------------------------------ the message it reads

  /** The first line of an order message. */
  function Heading(player: UserId): string
  {
    "Order for " + Mention(player) + ":"
  }

  function TotalLine(total: nat): string
  {
    "**Total: $" + Grouped(total) + "**"
  }

  /** An order message of the shape the handler parses: a heading naming
      the player, detail lines, and the grouped total on the last line. */
  function OrderMessage(player: UserId, details: seq<string>, total: nat): string
  {
    Join([Heading(player)] + details + [TotalLine(total)], "\n")
  }

  lemma {:induction false} MentionLacks(u: UserId, c: char)
    requires c != '<' && c != '@' && c != '-' && c != '>' && !IsDigit(c)
    ensures forall k :: 0 <= k < |Mention(u)| ==> Mention(u)[k] != c
  {
  }

  lemma {:induction false} HeadingHasNoBreak(player: UserId)
    ensures NoLineBreak(Heading(player))
  {
    var m := Mention(player);
    var h := Heading(player);
    assert forall j :: 0 <= j < |m| ==> MentionChar(m[j]);
    forall j | 0 <= j < |h| ensures !IsLineBreak(h[j]) {
      if 10 <= j < 10 + |m| {
        assert h[j] == m[j - 10];
      }
    }
  }

  lemma {:induction false} TotalLineHasNoBreak(total: nat)
    ensures NoLineBreak(TotalLine(total))
  {
    GroupedHasNoSpecials(total);
  }

  lemma {:induction false} HeadingLacksTotal(player: UserId)
    ensures !Contains(Heading(player), "Total:")
  {
    MentionLacks(player, 'T');
    MissingCharNotContained(Heading(player), "Total:", 0);
  }

  /** Splitting the heading at `"Order for "` and trimming the colon leaves
      the mention. */
  lemma {:induction false} HeadingMention(player: UserId)
    ensures var parts := Split(Heading(player), "Order for ");
      |parts| >= 2 && TrimEndChar(parts[1], ':') == Mention(player)
  {
    var m := Mention(player);
    MentionLacks(player, 'O');
    assert Heading(player) == "Order for " + (m + ":");
    SplitAfterPrefix("Order for ", m, ':');
  }

  /** The heading's mention is read back as the player's mention. */
  lemma {:induction false} PlayerMentionOfHeading(player: UserId, rest: seq<string>)
    requires |rest| >= 1 && rest[|rest| - 1] != []
    requires forall k :: 0 <= k < |rest| ==> NoLineBreak(rest[k])
    ensures PlayerMention(Join([Heading(player)] + rest, "\n")) == Some(Mention(player))
  {
    var lines := [Heading(player)] + rest;
    HeadingHasNoBreak(player);
    assert forall k :: 1 <= k < |lines| ==> lines[k] == rest[k - 1];
    SplitLinesOfJoin(lines);
    HeadingMention(player);
  }

  /** The total line is read back as the number it shows. */
  lemma {:induction false} TotalValueOfTotalLine(total: nat)
    ensures ParseInt(TotalValue(TotalLine(total))) == Some(total)
  {
    GroupedHasNoSpecials(total);
    GroupedWithoutCommas(total);
    TotalValueOfLabelled(Grouped(total), total);
  }

  /** A digits-and-commas text between the total label and the closing
      marker reads back as the number its digits spell. */
  lemma TotalValueOfLabelled(g: string, n: nat)
    requires forall i :: 0 <= i < |g| ==> IsDigit(g[i]) || g[i] == ','
    requires Without(g, ',') != [] && AllDigits(Without(g, ',')) && DigitsValue(Without(g, ',')) == n
    ensures ParseInt(TotalValue("**Total: $" + g + "**")) == Some(n)
  {
    var line := "**Total: $" + g + "**";
    var digits := Without(g, ',');
    LabelRemoved(g);
    MarkersRemoved(g);
    ReplaceCharByNothing(g, ',');
    DigitsReadBack(digits);
    TotalValueSteps(line, g, digits);
  }

  /** Removing `"**"` from a digits-and-commas text and the closing marker
      leaves the text. */
  lemma MarkersRemoved(g: string)
    requires forall i :: 0 <= i < |g| ==> IsDigit(g[i]) || g[i] == ','
    ensures Replace(g + "**", "**", "") == g
  {
    ReplaceTrailingOnly(g, "**");
  }

  /** A non-empty run of digits is its own strip and parses to its value. */
  lemma DigitsReadBack(digits: string)
    requires digits != [] && AllDigits(digits)
    ensures Strip(digits) == digits && ParseInt(digits) == Some(DigitsValue(digits))
  {
    StripUnpadded(digits);
    ParseIntOfDigits(digits);
  }

  /** The three removals and the strip of `TotalValue`, one at a time. */
  lemma TotalValueSteps(line: string, g: string, digits: string)
    requires Replace(line, "**Total: $", "") == g + "**"
    requires Replace(g + "**", "**", "") == g
    requires Replace(g, ",", "") == digits
    requires Strip(digits) == digits
    ensures TotalValue(line) == digits
  {
  }

  /** Removing `"**Total: $"` from the front of a digits-and-commas text
      and the closing marker leaves that text and the marker. */
  lemma LabelRemoved(g: string)
    requires forall i :: 0 <= i < |g| ==> IsDigit(g[i]) || g[i] == ','
    ensures Replace("**Total: $" + g + "**", "**Total: $", "") == g + "**"
  {
    MissingCharNotContained(g + "**", "**Total: $", 2);
    assert "**Total: $" + g + "**" == "**Total: $" + (g + "**");
    ReplaceLeadingOnly("**Total: $", g + "**");
  }

  /** The lines of an order message, and its heading's mention. */
  lemma {:induction false} OrderMessageLines(player: UserId, details: seq<string>, total: nat)
    requires forall k :: 0 <= k < |details| ==> NoLineBreak(details[k])
    ensures var content := OrderMessage(player, details, total);
      && SplitLines(content) == [Heading(player)] + details + [TotalLine(total)]
      && PlayerMention(content) == Some(Mention(player))
      && StartsWith(content, "Order for")
  {
    var rest := details + [TotalLine(total)];
    var lines := [Heading(player)] + rest;
    assert lines == [Heading(player)] + details + [TotalLine(total)];
    TotalLineHasNoBreak(total);
    assert forall k :: 0 <= k < |details| ==> rest[k] == details[k];
    PlayerMentionOfHeading(player, rest);
    HeadingHasNoBreak(player);
    assert forall k :: 1 <= k < |lines| ==> lines[k] == rest[k - 1];
    SplitLinesOfJoin(lines);
    HeadingStartsMessage(player, rest);
  }

  /** Confirming a well-formed order message tells the named player the
      message's total and edits the message, when the economy channel is
      found. */
  lemma {:induction false} ConfirmingAnOrderMessage(cfg: Config, r: Reaction, player: UserId,
                                                    details: seq<string>, total: nat)
    requires r.channelId == cfg.traderOrdersChannelId && r.emoji == ConfirmMark
    requires IsAdmin(r.member, cfg.adminRoleIds)
    requires forall k :: 0 <= k < |details| ==> NoLineBreak(details[k]) && !Contains(details[k], "Total:")
    requires !AlreadyConfirmed(OrderMessage(player, details, total))
    ensures var content := OrderMessage(player, details, total);
      OnReaction(cfg, r, content, true)
        == Confirmed(ConfirmedContent(content, r.member.value.id),
                     ReadyNotice(Mention(player), r.member.value.id, total))
  {
    var content := OrderMessage(player, details, total);
    OrderMessageLines(player, details, total);
    TotalLinesFirst(player, details, total);
    assert FirstLineWith(SplitLines(content), "Total:") == Some(TotalLine(total));
    TotalValueOfTotalLine(total);
  }

  lemma {:induction false} HeadingStartsMessage(player: UserId, rest: seq<string>)
    requires rest != []
    ensures StartsWith(Join([Heading(player)] + rest, "\n"), "Order for")
  {
    var lines := [Heading(player)] + rest;
    assert Join(lines, "\n") == Heading(player) + "\n" + Join(rest, "\n");
    assert Heading(player)[..|"Order for"|] == "Order for";
  }

  lemma {:induction false} TotalLinesFirst(player: UserId, details: seq<string>, total: nat)
    requires forall k :: 0 <= k < |details| ==> !Contains(details[k], "Total:")
    ensures FirstLineWith([Heading(player)] + details + [TotalLine(total)], "Total:") == Some(TotalLine(total))
  {
    var lines := [Heading(player)] + details + [TotalLine(total)];
    HeadingLacksTotal(player);
    assert TotalLine(total)[2..8] == "Total:";
    assert OccursAt(TotalLine(total), "Total:", 2);
    assert forall j :: 1 <= j < |lines| - 1 ==> lines[j] == details[j - 1];
    assert lines[|lines| - 1] == TotalLine(total);
  }
}
