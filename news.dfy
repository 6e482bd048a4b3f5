/** The /news command: the checks it makes before it offers a broadcast for
    confirmation, and the snapshot and preview it prepares. The Discord calls
    it makes are given as their results: the fetched reference message (or
    none, when the id does not parse or does not resolve), the guild's member
    list (or none, when the guild is not found) and, per attachment, the
    downloaded bytes (or none, when the download failed). */
module News {
  import opened Messages

  /** The second administrator, fixed in the code beside the configured one. */
  const SecondAdmin: int := 985239713751384094

  /** The administrators: the one named by the configuration, then the fixed one. */
  function AdminIds(configured: int): (ids: seq<int>)
    ensures forall u :: u in ids <==> u == configured || u == SecondAdmin
    ensures |ids| == 2 && ids[0] == configured
  {
    [configured, SecondAdmin]
  }

  /** An attachment of the reference message with the result of downloading it. */
  datatype Attachment = Attachment(filename: string, download: Option<seq<Byte>>)

  /** The reference message as fetched from the channel. */
  datatype RefMessage = RefMessage(content: string, embeds: seq<Embed>, attachments: seq<Attachment>)

  /** Why /news refused to offer a broadcast; each is answered with an error panel. */
  datatype NewsError = NotAdmin | MessageNotFound | GuildNotFound | NoRecipients

  /** What the confirmation panel offers: the snapshot, the recipients, and the
      figures the panel shows. */
  datatype Offer = Offer(data: MessageData, recipients: seq<Member>, preview: string,
                         recipientCount: nat, fileCount: nat, embedCount: nat)

  datatype Result<+T, +E> = Ok(value: T) | Err(error: E)

  /** The attachments whose download succeeded, in the message's order; a
      failed download is skipped. */
  function Downloaded(attachments: seq<Attachment>): (files: seq<File>)
    ensures |files| <= |attachments|
    ensures |attachments| == 1 ==>
              files == if attachments[0].download.Some?
                       then [File(attachments[0].filename, attachments[0].download.value)] else []
    ensures forall f :: f in files <==>
              exists a :: a in attachments && a.download.Some? && f == File(a.filename, a.download.value)
  {
    if attachments == [] then []
    else
      var rest := Downloaded(attachments[1..]);
      assert forall a :: a in attachments[1..] ==> a in attachments;
      match attachments[0].download
      case None => rest
      case Some(bytes) => [File(attachments[0].filename, bytes)] + rest
  }

  /** Downloading goes attachment by attachment: the files of a message are
      those of its first part followed by those of the rest. With the
      one-attachment case above this fixes the order and the number of files. */
  lemma {:induction false} DownloadedAppend(a: seq<Attachment>, b: seq<Attachment>)
    ensures Downloaded(a + b) == Downloaded(a) + Downloaded(b)
  {
    if a == [] {
      assert a + b == b;
    } else {
      assert (a + b)[1..] == a[1..] + b;
      DownloadedAppend(a[1..], b);
    }
  }

  /** The /news command up to the moment the confirmation panel is sent. */
  function NewsCommand(author: int, admins: seq<int>, fetched: Option<RefMessage>,
                       guild: Option<seq<Member>>): (r: Result<Offer, NewsError>)
    ensures author !in admins <==> r == Err(NotAdmin)
    ensures author in admins && fetched.None? <==> r == Err(MessageNotFound)
    ensures author in admins && fetched.Some? && guild.None? <==> r == Err(GuildNotFound)
    ensures r.Ok? <==> author in admins && fetched.Some? && guild.Some? && Humans(guild.value) != []
    ensures r.Ok? ==>
              && r.value.recipients == Humans(guild.value)
              && r.value.recipientCount == |r.value.recipients| >= 1
              && r.value.data == MessageData(fetched.value.content, fetched.value.embeds,
                                             Downloaded(fetched.value.attachments))
              && r.value.preview == Preview(fetched.value.content)
              && r.value.fileCount == |r.value.data.files| && r.value.embedCount == |r.value.data.embeds|
  {
    if author !in admins then Err(NotAdmin)
    else if fetched.None? then Err(MessageNotFound)
    else if guild.None? then Err(GuildNotFound)
    else
      var members := Humans(guild.value);
      if members == [] then Err(NoRecipients)
      else
        var ref := fetched.value;
        var data := MessageData(ref.content, ref.embeds, Downloaded(ref.attachments));
        Ok(Offer(data, members, Preview(ref.content), |members|, |data.files|, |data.embeds|))
  }

  /** A guild with no human member is refused with NoRecipients, so no
      broadcast is ever offered to nobody. */
  lemma NoRecipientsMeansOnlyBots(author: int, admins: seq<int>, fetched: Option<RefMessage>,
                                  guild: Option<seq<Member>>)
    requires author in admins && fetched.Some? && guild.Some?
    ensures NewsCommand(author, admins, fetched, guild) == Err(NoRecipients) <==>
              forall m :: m in guild.value ==> m.bot
  {
    OnlyBotsIffNoHumans(guild.value);
  }

  /** With the administrator list the bot is configured with, only the
      configured administrator and the fixed second one are ever offered a
      broadcast; anyone else is refused before anything is fetched. */
  lemma OnlyAdminsAreOffered(configured: int, author: int, fetched: Option<RefMessage>,
                             guild: Option<seq<Member>>)
    ensures NewsCommand(author, AdminIds(configured), fetched, guild).Ok? ==>
              author == configured || author == SecondAdmin
    ensures author != configured && author != SecondAdmin ==>
              NewsCommand(author, AdminIds(configured), fetched, guild) == Err(NotAdmin)
  {
  }
}
