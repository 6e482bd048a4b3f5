# PeachMine broadcast bot — a verified model of its broadcast core

PeachMine » Рассылка is a Discord bot that sends news to every member of one guild.
An administrator runs `/news <message id>`. The bot then reads that message
from the channel and keeps the members that are not bots. It shows a
confirmation panel with a preview and three buttons. On confirmation it sends
each member a direct message, one after another. The message carries the
original text with the guild's invite link appended. The bot counts the
deliveries and the failures, keeps updating a progress panel, and records the
figures of the last broadcast for `/info`.

This project models that core in Dafny:

- `messages.dfy` (module `Messages`): the data of a broadcast. It holds members,
  the message snapshot and the outgoing direct message. It also holds the pure
  helpers: the non-bot filter, the 200-character preview and the composition
  of the text with the invite suffix.
- `news.dfy` (module `News`): the checks `/news` makes before it offers a
  broadcast, in the code's order. They are: not an administrator, message not
  found, guild not found, no recipients. It also builds the snapshot, in which
  an attachment whose download failed is left out.
- `delivery.dfy` (module `Delivery`): the delivery loop as a method over the
  recipient list, with one abstract send outcome per member (`Delivered`,
  `Forbidden`, `OtherError`). It is proved against specification functions for
  the counters and for the log of progress pushes. The module also holds the
  process-wide statistics cell (`StatsCell`), which is overwritten at the end
  of each broadcast.
- `confirm_view.dfy` (module `ConfirmView`): the confirmation view as a class.
  Its fields are the ones the code keeps: `confirmed`, one `disabled` flag per
  button, `stopped`, and whether the view is still attached to the message. It
  has one method per handler (confirm, edit, cancel, timeout), each guarded by
  the administrator check.
- `console.dfy` (module `Console`): the console listener. It covers Python's
  `strip()` and `lower()`, the command dispatch, the loop that stops at
  `restart`, `stop` or `exit`, and the restart flag it sets. The module also
  holds the uptime split into hours, minutes and seconds, and the member count
  that `/info` reports.

Discord calls, the clock and console input appear as parameters: the result
of a fetch, the outcome of a send, whether a message can still be edited, a
timestamp, the lines typed.

## Behaviour that follows the code

- Any administrator may press any button. The guard is membership of the
  administrator list, not "is the person who ran `/news`".
- `confirmed` is written on confirmation and never read. A second confirmation
  by an administrator runs the handler again. The code relies on the buttons
  already being disabled, not on a guard of its own.
- Edit does not disable the buttons. It replaces the panel, detaches the view
  (`view=None`) and stops it.
- The timeout handler disables the buttons and tries to show the timeout
  panel. It does not stop the view itself and does not check `confirmed`.
- A run over N members pushes progress ceil(N/5) times in all, at 5, 10, …
  and at N. There is no extra final push beyond these.
- The success rate on the final panel divides by the member count, and nothing
  in the code guards that division. With no member the division raises after
  the statistics are written, so the final panel is not shown and the view is
  not stopped. `/news` never creates a view with no member, so this path is
  unreachable from the bot.

## Model

| member | source | states |
|---|---|---|
| `Messages.InviteText` | peachmine-broadcast/bot.py:198 | the invite suffix is the fixed lead followed by the configured invite link, unchanged |
| `Messages.Humans` | peachmine-broadcast/bot.py:307 | a member is a recipient exactly when it is in the guild and is not a bot; the list never grows |
| `Messages.HumansAppend` | peachmine-broadcast/bot.py:307 | the filter distributes over concatenation, so recipients keep the guild's order |
| `Messages.OnlyBotsIffNoHumans` | peachmine-broadcast/bot.py:307-311 | the recipient list is empty exactly when every member is a bot |
| `Messages.HumansCount` | peachmine-broadcast/bot.py:362 | the number of recipients is the member count minus the number of bots |
| `Messages.Preview` | peachmine-broadcast/bot.py:328-330 | the preview is never empty; empty content gives the placeholder; content of at most 200 characters is shown whole; longer content gives its first 200 characters followed by "..." |
| `Messages.PreviewIsShortPrefix` | peachmine-broadcast/bot.py:328-330 | the preview is at most 203 characters, and the part of the content it shows is a prefix of the content |
| `Messages.Compose` | peachmine-broadcast/bot.py:198-213 | with embeds the original embeds are replayed, without them the bot's news panel is used; in both cases the text is the content followed by the invite suffix, every downloaded file is attached in order, and an empty file list is sent as None |
| `Messages.ComposeKeepsContent` | peachmine-broadcast/bot.py:198-209 | every outgoing text ends with the invite suffix, and removing it gives back the author's content unchanged |
| `News.AdminIds` | peachmine-broadcast/bot.py:26-29 | an id is an administrator exactly when it is the configured one or the fixed second one; the list has two entries, the configured one first |
| `News.Downloaded` | peachmine-broadcast/bot.py:320-325 | the snapshot holds exactly the attachments whose download succeeded, never more files than the message has; a single attachment gives its file when the download succeeded and nothing otherwise |
| `News.DownloadedAppend` | peachmine-broadcast/bot.py:320-325 | the files of a message are those of any first part followed by those of the rest, so files keep the message's order and each successful download gives exactly one file |
| `News.NewsCommand` | peachmine-broadcast/bot.py:283-344 | a non-administrator is refused first, then a message that cannot be fetched, then a missing guild, then a guild with no human member; an offer goes out exactly when all four checks pass, to the non-bot members (at least one), with the snapshot, the preview and the file and embed counts |
| `News.OnlyAdminsAreOffered` | peachmine-broadcast/bot.py:288-290 | with the configured administrator list, an offer is made only to the configured administrator or the fixed second one, and anyone else is refused first |
| `News.NoRecipientsMeansOnlyBots` | peachmine-broadcast/bot.py:307-311 | for an administrator with a found message and guild, `/news` answers "no recipients" exactly when every member is a bot |
| `Delivery.TallyTotal` | peachmine-broadcast/bot.py:171-223 | after any number of members the success and failure counters add up to that number |
| `Delivery.TallyCountsOutcomes` | peachmine-broadcast/bot.py:215-223 | the success counter is the number of delivered sends and the failure counter the number of all other outcomes, whatever their order |
| `Delivery.FailureCountsOnlyFailed` | peachmine-broadcast/bot.py:218-223 | a Forbidden send or any other error adds one failure and no success |
| `Delivery.PushLogReportsTally` | peachmine-broadcast/bot.py:225-238 | every progress push happens at a push point and reports the counters after exactly that many members, and they add up to it |
| `Delivery.PushLogDones` | peachmine-broadcast/bot.py:226 | while the run is under way, pushes have happened exactly at the multiples of five so far; at the last member that count is added when it is not a multiple of five |
| `Delivery.PushLogAtPushPoints` | peachmine-broadcast/bot.py:226 | a complete run pushes at 5, 10, … and at the member count, which is ceil(N/5) pushes |
| `Delivery.DeliverAll` | peachmine-broadcast/bot.py:181-240 | the loop sends the composed message to every member in list order, goes on after every failure, ends with counters equal to the delivered and failed outcomes adding up to the member count, and pushes exactly the specified progress log |
| `Delivery.StatsCell.constructor` | peachmine-broadcast/bot.py:58 | the cell starts with zero figures and no timestamp, so `/info` reports no broadcast yet |
| `Delivery.StatsCell.Overwrite` | peachmine-broadcast/bot.py:243-248 | the cell is replaced by the given figures and timestamp |
| `Delivery.StatsCell.Summarize` | peachmine-broadcast/bot.py:373-381 | `/info` reports no broadcast exactly while the timestamp is unset, and the stored figures otherwise |
| `ConfirmView.BroadcastView.constructor` | peachmine-broadcast/bot.py:96-102 | a new view is unconfirmed, not stopped, with every button enabled; it is attached to the confirmation panel, as `/news` sends it with the panel at bot.py:343-344 |
| `ConfirmView.BroadcastView.DisableAllItems` | peachmine-broadcast/bot.py:163-165 | every button is disabled and nothing else changes |
| `ConfirmView.BroadcastView.Confirm` | peachmine-broadcast/bot.py:105-124 | a non-administrator gets the confirm error and nothing changes, the statistics included; an administrator's press sets `confirmed`, disables every button before any send, runs the broadcast and leaves it completed |
| `ConfirmView.BroadcastView.DoBroadcast` | peachmine-broadcast/bot.py:167-264 | it runs only once every button is disabled and `confirmed` is set, and leaves them so; every member is sent the composed message in order, progress is pushed at the push points, the statistics cell holds the final counters and timestamp, and with at least one member the final panel is shown and the view stopped |
| `ConfirmView.BroadcastView.Edit` | peachmine-broadcast/bot.py:127-143 | a non-administrator gets the edit error and nothing changes; an administrator's press shows the edit prompt, detaches the view and stops it, leaving the button flags and `confirmed` as they were |
| `ConfirmView.BroadcastView.Cancel` | peachmine-broadcast/bot.py:146-161 | a non-administrator gets the cancel error and nothing changes; an administrator's press disables every button, shows the cancellation panel and stops the view |
| `ConfirmView.BroadcastView.OnTimeout` | peachmine-broadcast/bot.py:266-276 | every button is disabled; the timeout panel is shown when the message can still be edited, and a failed edit leaves the panel as it was |
| `Console.IsSpace` | peachmine-broadcast/bot.py:459 | the characters `str.strip()` removes include all ASCII whitespace and no letter or digit |
| `Console.LeadingSpaces` | peachmine-broadcast/bot.py:459 | counts the whitespace at the start of a line and stops at the first other character |
| `Console.TrailingSpaces` | peachmine-broadcast/bot.py:459 | counts the whitespace at the end of a line and stops at the last other character |
| `Console.Strip` | peachmine-broadcast/bot.py:459 | the stripped line is empty exactly when the line is all whitespace, and otherwise starts and ends with a character that is not whitespace |
| `Console.StripPadding` | peachmine-broadcast/bot.py:459 | stripping removes exactly the whitespace around a word |
| `Console.Lower` | peachmine-broadcast/bot.py:459 | each character is lower-cased in place and the length is kept |
| `Console.Word` | peachmine-broadcast/bot.py:459 | the word is empty exactly when the line is blank |
| `Console.CommandOf` | peachmine-broadcast/bot.py:461-518 | "restart" gives restart, "stop" and "exit" give stop, "status" gives status and "help" gives help, each exactly for those words; any other non-empty word is reported as unknown with that word; an empty word is ignored |
| `Console.Classify` | peachmine-broadcast/bot.py:459-518 | a line is ignored exactly when it is blank |
| `Console.PaddingIgnored` | peachmine-broadcast/bot.py:459-518 | whitespace around a command word never changes the command |
| `Console.FirstEnding` | peachmine-broadcast/bot.py:461-496 | finds the first command that is restart or stop, with no such command before it |
| `Console.Host.constructor` | peachmine-broadcast/bot.py:33 | the process starts with the restart flag clear and the bot not closed |
| `Console.Host.ConsoleListener` | peachmine-broadcast/bot.py:452-523 | every line up to and including the first restart or stop is handled in order, and none after it; the bot is closed exactly when such a line came, and the restart flag is set exactly when that line was restart |
| `Console.GetUptime` | peachmine-broadcast/bot.py:438-445 | the uptime is unknown exactly before the bot is ready; otherwise minutes and seconds are below sixty and hours, minutes and seconds add back up to the elapsed seconds |
| `Console.UptimeUnique` | peachmine-broadcast/bot.py:442-445 | that split is the only one with minutes and seconds below sixty |
| `Console.MemberCount` | peachmine-broadcast/bot.py:362 | `/info` reports zero without a guild, and otherwise the member count minus the bots |

## Left out

- Discord transport is not modelled. Fetching the message, reading the guild,
  downloading attachments and sending direct messages appear only as their
  results: an optional value, or a send outcome.
- The replies to button presses (edit_message and send_message) are assumed to
  succeed. The same holds for the final panel edit after a broadcast. In the
  code an exception there leaves the handler before `stop()`.
- Failed progress-panel edits are swallowed. The model returns the log of
  attempted pushes, and nothing in it depends on whether an edit succeeded.
- Embeds, colours, titles, footers and timestamps of panels are not modelled.
  Panels are reduced to the `Panel` values.
- The 1.5-second pause between sends, the 0.1-second console poll and the
  120-second view timer are scheduling concerns. The timeout is a method that
  can be called.
- The framework's own dispatch is not modelled: refusing presses on disabled
  buttons or a stopped view, and stopping a view when it times out. The
  handlers can be called in any order. In particular the 120-second timer is
  refreshed only by a button press, while delivery pauses 1.5 seconds per
  member; with about 80 members or more the timeout handler can then run
  during a delivery and show the expired panel while the sends go on. The
  model allows that interleaving but does not state it.
- The success percentage `round(success/total*100, 1)` is floating point. Only
  its division by zero for an empty member list is modelled.
- `datetime.now()` becomes a `now` parameter, and date formatting and `print`
  logging are left out.
- Console.GetUptime starts from an integer number of elapsed seconds rather
  than truncating `delta.total_seconds()`, a float.
- Console.Lower lower-cases ASCII letters only, not all of Unicode. The
  command a line stands for is unaffected, since every command word is ASCII.
  Unknown words with non-ASCII capitals keep those capitals.
- Console.Host.ConsoleListener reads a finite list of lines. The code loops
  forever, catching any exception from `input()`. The status and help output
  is not modelled, and neither are the swallowed admin notices.
- `/restart`, the startup notices, `bot.close()`, the process exit codes and
  the configuration loading are process lifecycle and I/O. The configured
  values appear as parameters: the invite link, including its default when
  none is configured, is the `invite` argument.
- `/info` is modelled only through its statistics summary, uptime and member
  count. Delivering the panel by direct message, and the error reply when that
  fails, are not modelled.
- Delivery.DeliverAll and `ConfirmView.BroadcastView.Confirm` take one send
  outcome per member, fixed in advance. They do not model a send whose outcome
  depends on timing.
