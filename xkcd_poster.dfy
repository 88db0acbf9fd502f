/** The XKCD auto-poster cog: a persisted state of the last posted comic
    number, the target channel and an enabled flag; a poll that posts the
    latest comic when it is newer; and the admin commands that change the
    state. The API answer, channel lookup and send outcomes are inputs. */
module XkcdPoster {
  import opened Common
  import opened Xkcd

  /** The state file's values, after the `.get` defaults the cog applies. */
  datatype PosterState = PosterState(lastPosted: int, channelId: Option<int>, enabled: bool)

  /** The state written when there is no file or it does not load. */
  const DefaultState: PosterState := PosterState(0, None, true)

  /** A channel id that Python treats as true. */
  predicate ChannelSet(id: Option<int>) {
    id.Some? && id.value != 0
  }

  /** `_create_embed`: "#num: title" linking to the comic's page, the alt
      text in underscores, and a "Published: y-mm-dd" footer where a missing
      date field counts as 0 and a field that is not an integer leaves the
      footer off. */
  function PosterEmbed(c: Comic): (e: Embed)
    ensures e.title == "#" + IntToString(c.num) + ": " + c.title
    ensures e.url == Some(ApiBase + "/" + IntToString(c.num)) && e.color == Some(BlurpleBlue)
    ensures e.description == if Truthy(c.alt) then "_" + c.alt.value + "_" else ""
    ensures c.year.None? && c.month.None? && c.day.None? ==> e.footer == Some("Published: " + DateText(0, 0, 0))
    ensures NotInteger(c.year) || NotInteger(c.month) || NotInteger(c.day) ==> e.footer.None?
    ensures c.year.Some? && c.month.Some? && c.day.Some?
            && IsDigits(c.year.value) && IsDigits(c.month.value) && IsDigits(c.day.value) ==>
              e.footer == Some("Published: " + DateText(DigitsValue(c.year.value), DigitsValue(c.month.value),
                                                        DigitsValue(c.day.value)))
  {
    FooterMissingOrNotInteger(c, true);
    ComicEmbed(c, Footer(c, true))
  }

  /** The poll's guard: enabled, a comic newer than the last posted one,
      and a configured channel that resolves. */
  predicate ShouldPost(enabled: bool, lastPosted: int, channelId: Option<int>, latest: Option<Comic>, channelFound: bool) {
    enabled && latest.Some? && latest.value.num > lastPosted && ChannelSet(channelId) && channelFound
  }

  /** Once a comic is posted, the same comic does not pass the guard again. */
  lemma PostedOnce(enabled: bool, lastPosted: int, channelId: Option<int>, latest: Option<Comic>, channelFound: bool)
    requires ShouldPost(enabled, lastPosted, channelId, latest, channelFound)
    ensures !ShouldPost(enabled, latest.value.num, channelId, latest, channelFound)
  {
  }

  /** What the admin commands answer. */
  datatype Outcome = Denied | InvalidChannel | Done

  /** Where `xkcd_post_now` sends the comic. */
  datatype PostTarget = NotPermitted | FetchFailed | ToChannel(embed: Embed) | ToInvoker(embed: Embed)

  class XkcdPosterCog {
    var lastPosted: int
    var channelId: Option<int>
    var enabled: bool

    /** `__init__`: the saved state, or the default; then a channel id from
        `XKCD_POST_CHANNEL_ID` when it is all digits. */
    constructor (saved: Option<PosterState>, envChannel: Option<string>)
      ensures var s := saved.GetOr(DefaultState);
              lastPosted == s.lastPosted && enabled == s.enabled
      ensures Truthy(envChannel) && IsDigits(envChannel.value) ==> channelId == Some(DigitsValue(envChannel.value))
      ensures !(Truthy(envChannel) && IsDigits(envChannel.value)) ==> channelId == saved.GetOr(DefaultState).channelId
    {
      var s := saved.GetOr(DefaultState);
      lastPosted := s.lastPosted;
      enabled := s.enabled;
      if Truthy(envChannel) && IsDigits(envChannel.value) {
        channelId := Some(DigitsValue(envChannel.value));
      } else {
        channelId := s.channelId;
      }
    }

    /** `poll_loop`: posts iff `ShouldPost` and the send goes through, and
        only then records the comic's number, which is larger than the one
        before. */
    method Poll(latest: Option<Comic>, channelFound: bool, sendOk: bool) returns (sent: Option<Embed>)
      modifies this
      ensures sent.Some? <==> ShouldPost(old(enabled), old(lastPosted), old(channelId), latest, channelFound) && sendOk
      ensures sent.Some? ==> sent.value == PosterEmbed(latest.value) && lastPosted == latest.value.num
      ensures sent.None? ==> lastPosted == old(lastPosted)
      ensures lastPosted >= old(lastPosted)
      ensures channelId == old(channelId) && enabled == old(enabled)
    {
      sent := None;
      if !enabled || latest.None? {
        return;
      }
      if latest.value.num > lastPosted {
        if ChannelSet(channelId) {
          if !channelFound {
            return;
          }
          var embed := PosterEmbed(latest.value);
          if sendOk {
            sent := Some(embed);
            lastPosted := latest.value.num;
          }
        }
      }
    }

    /** `xkcd_set_channel`: the owner or a guild manager may set the channel
        to a `<#id>` mention or a raw id; anything else changes nothing. */
    method SetChannel(permitted: bool, arg: string) returns (r: Outcome)
      modifies this
      ensures !permitted ==> r == Denied
      ensures permitted && ChannelArgument(arg).None? ==> r == InvalidChannel
      ensures r == Done <==> permitted && ChannelArgument(arg).Some?
      ensures r == Done ==> channelId == ChannelArgument(arg)
      ensures r != Done ==> channelId == old(channelId)
      ensures lastPosted == old(lastPosted) && enabled == old(enabled)
    {
      if !permitted {
        return Denied;
      }
      var id := ChannelArgument(arg);
      if id.None? {
        return InvalidChannel;
      }
      channelId := id;
      r := Done;
    }

    /** `xkcd_enable` and `xkcd_disable`: only the bot owner may switch
        automatic posting. */
    method SetEnabled(isOwner: bool, on: bool) returns (r: Outcome)
      modifies this
      ensures r == (if isOwner then Done else Denied)
      ensures enabled == (if isOwner then on else old(enabled))
      ensures lastPosted == old(lastPosted) && channelId == old(channelId)
    {
      if !isOwner {
        return Denied;
      }
      enabled := on;
      r := Done;
    }

    /** `xkcd_post_now`: the latest comic goes to the configured channel when
        it resolves, else to the invoking channel. `sendOk` is whether that
        send returned: only then does the number become the last posted
        one, even when it is not newer; a send that raises ends the command
        with the state as it was. */
    method PostNow(permitted: bool, latest: Option<Comic>, channelFound: bool, sendOk: bool) returns (r: PostTarget)
      modifies this
      ensures !permitted ==> r == NotPermitted
      ensures permitted && latest.None? ==> r == FetchFailed
      ensures permitted && latest.Some? ==>
                && lastPosted == (if sendOk then latest.value.num else old(lastPosted))
                && r == (if ChannelSet(old(channelId)) && channelFound then ToChannel(PosterEmbed(latest.value))
                         else ToInvoker(PosterEmbed(latest.value)))
      ensures !(permitted && latest.Some?) ==> lastPosted == old(lastPosted)
      ensures channelId == old(channelId) && enabled == old(enabled)
    {
      if !permitted {
        return NotPermitted;
      }
      if latest.None? {
        return FetchFailed;
      }
      var embed := PosterEmbed(latest.value);
      if ChannelSet(channelId) && channelFound {
        r := ToChannel(embed);
      } else {
        r := ToInvoker(embed);
      }
      if sendOk {
        lastPosted := latest.value.num;
      }
    }
  }
}
