/** Values shared by the broadcast bot: members of the guild, the snapshot of the
    reference message, the outgoing direct message, and the pure helpers that
    build them (the non-bot filter, the confirmation preview and the text with
    the invite suffix). */
module Messages {

  datatype Option<+T> = None | Some(value: T)

  type Byte = bv8

  /** A guild member as the bot sees it: its id, its display name and whether
      the account is a bot. */
  datatype Member = Member(id: int, name: string, bot: bool)

  /** A rich embed of the reference message. The bot never looks inside one: it
      is forwarded as it is, so the model keeps it as an opaque descriptor. */
  datatype Embed = Embed(descriptor: string)

  /** An attachment whose bytes have been downloaded. */
  datatype File = File(filename: string, data: seq<Byte>)

  /** The snapshot taken by /news: the content of the reference message, its
      embeds, and the attachments that could be read. */
  datatype MessageData = MessageData(content: string, embeds: seq<Embed>, files: seq<File>)

  /** The direct message sent to one member. `Replay` forwards the original
      embeds with the text in the message body; `NewsPanel` is the bot's own
      news embed whose description holds the text. A files list that would be
      empty is sent as `None`. */
  datatype Outgoing =
    | Replay(content: string, embeds: seq<Embed>, files: Option<seq<File>>)
    | NewsPanel(description: string, files: Option<seq<File>>)

  /** The fixed text put in front of the invite link. */
  const InviteLead: string := "\n\n\U{1F517} **Наш Discord:** "

  /** Longest content shown unabridged in the confirmation preview. */
  const PreviewLimit: nat := 200

  /** Shown in the preview when the reference message has no text. */
  const Placeholder: string := "*[Embed или изображение]*"

  /** The invite suffix appended to every broadcast text. */
  function InviteText(invite: string): (t: string)
    ensures |t| == |InviteLead| + |invite|
    ensures t[..|InviteLead|] == InviteLead && t[|InviteLead|..] == invite
  {
    InviteLead + invite
  }

  /** The members a broadcast goes to: every member that is not a bot, in the
      guild's order. */
  function Humans(members: seq<Member>): (r: seq<Member>)
    ensures forall m :: m in r <==> m in members && !m.bot
    ensures |r| <= |members|
  {
    if members == [] then []
    else if members[0].bot then Humans(members[1..])
    else [members[0]] + Humans(members[1..])
  }

  /** The number of bots in a member list. */
  function Bots(members: seq<Member>): nat
  {
    if members == [] then 0 else (if members[0].bot then 1 else 0) + Bots(members[1..])
  }

  /** Filtering distributes over concatenation, so the recipients keep the
      guild's relative order. */
  lemma {:induction false} HumansAppend(a: seq<Member>, b: seq<Member>)
    ensures Humans(a + b) == Humans(a) + Humans(b)
  {
    if a == [] {
      assert a + b == b;
    } else {
      assert (a + b)[1..] == a[1..] + b;
      HumansAppend(a[1..], b);
    }
  }

  /** The filter leaves nothing exactly when every member is a bot. */
  lemma {:induction false} OnlyBotsIffNoHumans(members: seq<Member>)
    ensures Humans(members) == [] <==> forall m :: m in members ==> m.bot
  {
    if members != [] {
      OnlyBotsIffNoHumans(members[1..]);
      assert forall m :: m in members <==> m == members[0] || m in members[1..];
    }
  }

  /** The filter drops exactly the bots. */
  lemma {:induction false} HumansCount(members: seq<Member>)
    ensures |Humans(members)| == |members| - Bots(members)
  {
    if members != [] {
      HumansCount(members[1..]);
    }
  }

  /** The text shown in the confirmation panel: the first 200 characters and
      an ellipsis when the content is longer, the content itself otherwise,
      and the placeholder when that leaves nothing. */
  function Preview(content: string): (p: string)
    ensures p != []
    ensures content == [] ==> p == Placeholder
    ensures |content| <= PreviewLimit && content != [] ==> p == content
    ensures |content| > PreviewLimit ==>
              |p| == PreviewLimit + 3 && p[..PreviewLimit] == content[..PreviewLimit] && p[PreviewLimit..] == "..."
  {
    var preview := if |content| > PreviewLimit then content[..PreviewLimit] + "..." else content;
    if preview == [] then Placeholder else preview
  }

  /** The preview never exceeds 203 characters, and what it shows of the
      content is a prefix of the content. */
  lemma PreviewIsShortPrefix(content: string)
    ensures |Preview(content)| <= PreviewLimit + 3
    ensures content != [] ==>
              var shown := if |content| > PreviewLimit then PreviewLimit else |content|;
              Preview(content)[..shown] == content[..shown]
  {
    assert |Placeholder| <= PreviewLimit + 3;
  }

  /** The text carried by an outgoing message: the body of a replay, the
      description of a news panel. */
  function Text(m: Outgoing): string
  {
    match m
    case Replay(content, _, _) => content
    case NewsPanel(description, _) => description
  }

  /** The attachments carried by an outgoing message. */
  function Attached(m: Outgoing): seq<File>
  {
    match m
    case Replay(_, _, files) => if files.Some? then files.value else []
    case NewsPanel(_, files) => if files.Some? then files.value else []
  }

  /** The message sent to each member. With embeds the original embeds are
      replayed and the text goes in the body; without, the text becomes the
      description of the bot's news panel. In both cases the text is the
      content followed by the invite suffix, and every downloaded attachment
      is attached, in order. */
  function Compose(data: MessageData, invite: string): (m: Outgoing)
    ensures Text(m) == data.content + InviteText(invite)
    ensures m.Replay? <==> data.embeds != []
    ensures m.Replay? ==> m.embeds == data.embeds
    ensures Attached(m) == data.files
    ensures m.files.Some? <==> data.files != []
  {
    var files := if data.files != [] then Some(data.files) else None;
    if data.embeds != [] then
      var finalContent := if data.content != [] then data.content + InviteText(invite) else InviteText(invite);
      Replay(finalContent, data.embeds, files)
    else
      NewsPanel(data.content + InviteText(invite), files)
  }

  /** Stripping the invite suffix from any outgoing text gives back the
      original content: the broadcast never alters what the author wrote. */
  lemma ComposeKeepsContent(data: MessageData, invite: string)
    ensures var t := Text(Compose(data, invite));
            |t| >= |InviteText(invite)| &&
            t[..|t| - |InviteText(invite)|] == data.content &&
            t[|t| - |InviteText(invite)|..] == InviteText(invite)
  {
    var t := Text(Compose(data, invite));
    assert t == data.content + InviteText(invite);
    assert t[..|data.content|] == data.content;
    assert t[|data.content|..] == InviteText(invite);
  }
}
