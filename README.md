# Slack user and bot nicks, in Dafny

This project models how wee-slack turns the info record of a Slack user or
bot into the nick it shows, as `slack/slack_user.py` does it. It also models
the part of the `SlackUser` and `SlackBot` constructors that stores an info
record it was given.

- A **user's nick** (`SlackUser.nick`) starts from a base name. The base name
  is the profile's `display_name` when that is non-empty and the workspace's
  `use_real_names` option is off. Otherwise it is Python's
  `display_name or real_name or name`, so an empty string counts as missing.
  Every U+0020 space is removed from the base name. When colouring is asked
  for, the name is wrapped in the user's colour. When the profile's `team` is
  not the workspace id, the `external_user_suffix` is appended last, outside
  any colour.
- A **user's colour** (`_nick_color`) is the host's configured own-nick colour
  (`weechat.color.chat_nick_self`) for the workspace's own user. For everybody
  else it is the host's hashed colour of the space-free base name.
- A **bot's nick** (`format_bot_nick`, `SlackBot.nick`) is the bot name without
  spaces. It is wrapped in the hashed colour of that stripped name when
  colouring is asked for. The `bot_user_suffix` is always appended. A bot's
  nick has no team check and never uses the own-nick colour.
- A **constructor** given an info record stores it and launches no fetch.
  Without a record it records the fetch of the entry's own info.

Module `SlackTypes` holds the records. `Nicks` holds the derivation as pure
functions, with the lemmas about it. `Entries` holds the two classes.

Calls the derivation makes but cannot see are modelled as fields of a `Host`
value and left uninterpreted:
- `weechat.info_get("nick_color_name", …)` is `nickColorName`.
- The configured `weechat.color.chat_nick_self` is `chatNickSelf`.
- `with_color` from `slack/util` is `withColor`, and nothing is assumed about
  its output.

The global `shared.config.look` suffixes are passed in as a `Look` value. The
workspace's id, its own user's id and its `use_real_names` option are passed
in as a `Workspace` value.

In this code the `use_real_names` option never changes the base name. When
`display_name` is non-empty, the fallback chain also starts with
`display_name`, so both branches return it. `Nicks.UseRealNamesHasNoEffect`
states this, and `Nicks.NameFromProfileIsFallbackChain` gives the chain the
base name always equals.

## Model

| member | source | states |
|---|---|---|
| `Nicks.RemoveSpaces` | slack/slack_user.py:23 | the result holds no U+0020 space, and a name with no space comes back unchanged |
| `Nicks.RemoveSpacesKeepsOthers` | slack/slack_user.py:23 | every character other than a space is kept as often as it occurs; only spaces are dropped |
| `Nicks.RemoveSpacesAppend` | slack/slack_user.py:23 | stripping distributes over concatenation, so characters keep their order |
| `Nicks.RemoveSpacesIdempotent` | slack/slack_user.py:80-81 | stripping an already stripped name changes nothing |
| `Nicks.FirstTruthy` | slack/slack_user.py:74-78 | Python's `a or b or last`: the result is the first truthy candidate, or `last` when no candidate is truthy; it is empty only when every candidate is falsy and `last` is empty |
| `Nicks.NameFromProfile` | slack/slack_user.py:69-78 | a non-empty `display_name` is returned as is when real names are off; the result is always one of `display_name`, `real_name`, `name`; otherwise a non-empty `real_name` is taken before `name`, and `name` is returned when both others are empty or missing; it is empty exactly when all three are empty or missing |
| `Nicks.NameFromProfileIsFallbackChain` | slack/slack_user.py:74-78 | for either value of the option, the base name is the first non-empty of `display_name`, `real_name`, otherwise `name` |
| `Nicks.UseRealNamesHasNoEffect` | slack/slack_user.py:69-78 | the `use_real_names` option never changes the base name |
| `Nicks.NameWithoutSpaces` | slack/slack_user.py:80-81 | the stripped base name holds no space and equals the base name when that has none |
| `Nicks.NickColorName` | slack/slack_user.py:18-19 | the host's hashed colour of the given nick; nothing is assumed about it |
| `Nicks.NickColor` | slack/slack_user.py:83-89 | the own user gets the configured own-nick colour; everybody else gets the hashed colour of the space-free base name |
| `Nicks.SelfColorIgnoresProfile` | slack/slack_user.py:84-87 | the own user's colour does not depend on the profile |
| `Nicks.OtherColorFollowsStrippedName` | slack/slack_user.py:89 | two other users whose base names agree once spaces are removed get the same colour, whatever their ids |
| `Nicks.ExternalSuffix` | slack/slack_user.py:64-65 | the suffix is empty for a profile of the workspace's team and is the external-user suffix otherwise |
| `Nicks.UserNick` | slack/slack_user.py:58-67 | uncoloured: the stripped name for a team member, and the stripped name followed by the external suffix for anyone else; coloured: the coloured stripped name followed by the same suffix |
| `Nicks.ColorWrapsOnlyTheName` | slack/slack_user.py:61-65 | the coloured nick is obtained from the uncoloured one by cutting off its suffix, wrapping the space-free rest in the user's colour and putting the same suffix back; the suffix is never passed to `with_color` |
| `Nicks.PlainUserNickIgnoresHost` | slack/slack_user.py:58-67 | the uncoloured nick depends only on the profile and the configuration, not on the host's colours |
| `Nicks.ExternalSuffixOnce` | slack/slack_user.py:64-65 | an external user's uncoloured nick ends with the suffix, and cutting it off once leaves exactly the space-free base name |
| `Nicks.FormatBotNick` | slack/slack_user.py:22-28 | the result always ends with the bot-user suffix; uncoloured it is the space-free name followed by the suffix; coloured, the space-free name is wrapped in its own hashed colour |
| `Nicks.BotNickIgnoresSpaces` | slack/slack_user.py:22-23 | a bot name and its space-free form give the same nick |
| `Nicks.PlainBotNickSpaces` | slack/slack_user.py:22-28 | an uncoloured bot nick has exactly the spaces of the suffix, and stripping it gives the stripped name followed by the stripped suffix |
| `Nicks.BotAndUserFormattingAgree` | slack/slack_user.py:22-28 | for a user who is neither the own user nor external, the user nick followed by the bot suffix is the bot nick of the user's base name: both strip and colour the same way |
| `Nicks.BotNick` | slack/slack_user.py:119-120 | a bot's nick ends with the bot-user suffix and, uncoloured, is its space-free name followed by that suffix |
| `Nicks.BotNickIgnoresSelfColor` | slack/slack_user.py:119-120 | a bot's nick never uses the own-nick colour |
| `Nicks.AliceExample` | slack/slack_user.py:80-81 | stripping "Alice B" gives "AliceB" |
| `Nicks.InternalUserExample` | slack/slack_user.py:58-81 | display name "Alice B" in the workspace's own team gives "AliceB" |
| `Nicks.ExternalUserExample` | slack/slack_user.py:58-81 | the same profile in another team, with suffix "[ext]", gives "AliceB[ext]" |
| `Nicks.BotExample` | slack/slack_user.py:22-28 | bot name "My Bot" with suffix " [BOT]" gives "MyBot [BOT]" |
| `Entries.SlackUser.constructor` | slack/slack_user.py:32-44 | stores the workspace and id; a supplied info is stored and no fetch task exists; otherwise a fetch of this user's info is recorded and no info is held |
| `Entries.SlackUser.Nick` | slack/slack_user.py:58-67 | the nick computed step by step from the stored info is `UserNick`, and ends with the external suffix for an external user |
| `Entries.SlackBot.constructor` | slack/slack_user.py:93-105 | stores the workspace and id; a supplied info is stored and no fetch task exists; otherwise a fetch of this bot's info is recorded and no info is held |
| `Entries.SlackBot.Nick` | slack/slack_user.py:119-120 | the bot's nick is `format_bot_nick` of its stored name and ends with the bot-user suffix |

## Left out

- `create_task`, `_set_info` and `ensure_initialized` (slack/slack_user.py:44, 50-56, 105, 111-117) are left out because they are asynchronous event-loop code. The constructors only record which fetch would be launched; the fetch never completes in the model.
- `fetch_user_info` and `fetch_bot_info` through `workspace.api` are left out because they are network I/O.
- `nick_color`, the own-nick colour from the WeeChat configuration, and `slack/util`'s `with_color` are host calls. They are uninterpreted `Host` fields, so the model assumes nothing about the colours or the wrapped text. `slack/util` is not part of this model.
- The workspace is a value snapshot (`Workspace`) instead of a live reference. A change to the workspace's options after construction is not modelled.
- Python's `if info:` is also false for an empty dict. The model's info records always hold their fields, so only a missing record leads to a fetch.
- Reading `_info` before it is set raises an error in Python. The `Nick` methods require the info to be present instead.
- The shape of the info records is limited to the fields the nick derivation reads. A missing `name`, `profile` or `team` key, which Python reports as a `KeyError`, cannot be expressed.
