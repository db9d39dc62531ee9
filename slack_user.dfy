/*
 * Display-name ("nick") derivation for the users and bots of a Slack
 * workspace, and the part of the two entry constructors that stores a
 * supplied info record.
 *
 * Module layout:
 *   SlackTypes — the records the derivation reads (users.info / bots.info
 *                records, the workspace, the `look` options, the host)
 *   Nicks      — the pure derivation and the lemmas about it
 *   Entries    — the SlackUser and SlackBot objects
 */

module SlackTypes {

  datatype Option<T> = None | Some(value: T)

  /** The `profile` object of a users.info `user` record: `display_name` may be missing. */
  datatype Profile = Profile(displayName: Option<string>, team: string)

  /**
   * The fields of a users.info `user` record that the nick derivation reads:
   * the nested profile, the optional top-level `real_name`, and `name`.
   */
  datatype UserInfo = UserInfo(profile: Profile, realName: Option<string>, name: string)

  /** The field of a bots.info `bot` record that the nick derivation reads. */
  datatype BotInfo = BotInfo(name: string)

  /**
   * What an entry reads from its workspace: the team id, the id of the
   * workspace's own user, and its `use_real_names` option.
   */
  datatype Workspace = Workspace(id: string, myUserId: string, useRealNames: bool)

  /** The global `look` options the nicks read. */
  datatype Look = Look(botUserSuffix: string, externalUserSuffix: string)

  /**
   * Capabilities of the host that the derivation calls but does not define:
   *   nickColorName — the host's hash-based colour for a nick
   *   chatNickSelf  — the host's configured colour for the user's own nick
   *   withColor     — wraps a text in a colour; its output format is unknown
   */
  datatype Host = Host(
    nickColorName: string -> string,
    chatNickSelf: string,
    withColor: (string, string) -> string)
}

module Nicks {
  import opened SlackTypes

  /** Python truthiness of an optional string: present and not empty. */
  predicate Truthy(o: Option<string>)
  {
    o.Some? && o.value != ""
  }

  /** Python's `o or fallback` for an optional string `o` and a string `fallback`. */
  function Or(o: Option<string>, fallback: string): string
  {
    if Truthy(o) then o.value else fallback
  }

  /**
   * Reference meaning of a chain `c0 or c1 or ... or last`: the first truthy
   * candidate, or `last` when none is truthy (even when `last` is empty).
   */
  function FirstTruthy(candidates: seq<Option<string>>, last: string): (r: string)
    ensures r == last || exists i :: 0 <= i < |candidates| && Truthy(candidates[i]) && r == candidates[i].value
    ensures r == "" <==> last == "" && forall i :: 0 <= i < |candidates| ==> !Truthy(candidates[i])
    ensures forall i ::
              (0 <= i < |candidates| && Truthy(candidates[i]) && forall j :: 0 <= j < i ==> !Truthy(candidates[j]))
              ==> r == candidates[i].value
    ensures (forall i :: 0 <= i < |candidates| ==> !Truthy(candidates[i])) ==> r == last
  {
    if candidates == [] then last
    else if Truthy(candidates[0]) then candidates[0].value
    else
      var r := FirstTruthy(candidates[1..], last);
      assert forall i :: 1 <= i < |candidates| ==> candidates[i] == candidates[1..][i - 1];
      r
  }

  /** `s.replace(" ", "")`: every U+0020 space removed, every other character kept in order. */
  function RemoveSpaces(s: string): (r: string)
    ensures ' ' !in r
    ensures ' ' !in s ==> r == s
  {
    if s == [] then []
    else if s[0] == ' ' then RemoveSpaces(s[1..])
    else [s[0]] + RemoveSpaces(s[1..])
  }

  /** Removing spaces keeps every other character, as often as it occurs. */
  lemma {:induction false} RemoveSpacesKeepsOthers(s: string)
    ensures multiset(RemoveSpaces(s)) == multiset(s)[' ' := 0]
  {
    if s != [] {
      assert s == [s[0]] + s[1..];
      RemoveSpacesKeepsOthers(s[1..]);
    }
  }

  /** Removing spaces works piece by piece: it distributes over concatenation. */
  lemma {:induction false} RemoveSpacesAppend(a: string, b: string)
    ensures RemoveSpaces(a + b) == RemoveSpaces(a) + RemoveSpaces(b)
  {
    if a == [] {
      assert a + b == b;
    } else {
      assert (a + b)[0] == a[0];
      assert (a + b)[1..] == a[1..] + b;
      RemoveSpacesAppend(a[1..], b);
    }
  }

  /** Removing spaces a second time changes nothing. */
  lemma RemoveSpacesIdempotent(s: string)
    ensures RemoveSpaces(RemoveSpaces(s)) == RemoveSpaces(s)
  {
  }

  /**
   * `_name_from_profile`: the profile's `display_name` when it is non-empty
   * and real names are not wanted; otherwise
   * `display_name or real_name or name`.
   */
  function NameFromProfile(info: UserInfo, useRealNames: bool): (r: string)
    ensures Truthy(info.profile.displayName) && !useRealNames ==> r == info.profile.displayName.value
    ensures r == info.name
         || (info.profile.displayName.Some? && r == info.profile.displayName.value)
         || (info.realName.Some? && r == info.realName.value)
    ensures r == "" <==> !Truthy(info.profile.displayName) && !Truthy(info.realName) && info.name == ""
    ensures !Truthy(info.profile.displayName) && Truthy(info.realName) ==> r == info.realName.value
    ensures !Truthy(info.profile.displayName) && !Truthy(info.realName) ==> r == info.name
  {
    var displayName := info.profile.displayName;
    if Truthy(displayName) && !useRealNames then displayName.value
    else Or(info.profile.displayName, Or(info.realName, info.name))
  }

  /**
   * Whatever the flag, the base name is the first non-empty of
   * `display_name`, `real_name`, and otherwise `name`.
   */
  lemma NameFromProfileIsFallbackChain(info: UserInfo, useRealNames: bool)
    ensures NameFromProfile(info, useRealNames)
         == FirstTruthy([info.profile.displayName, info.realName], info.name)
  {
    var c := [info.profile.displayName, info.realName];
    assert c[1..] == [info.realName];
    assert c[1..][1..] == [];
  }

  /**
   * The `use_real_names` option never changes the base name: the chain it
   * falls back to starts with `display_name` too.
   */
  lemma UseRealNamesHasNoEffect(info: UserInfo)
    ensures NameFromProfile(info, true) == NameFromProfile(info, false)
  {
  }

  /** `_name_without_spaces`: the base name with every space removed. */
  function NameWithoutSpaces(info: UserInfo, useRealNames: bool): (r: string)
    ensures ' ' !in r
    ensures ' ' !in NameFromProfile(info, useRealNames) ==> r == NameFromProfile(info, useRealNames)
  {
    RemoveSpaces(NameFromProfile(info, useRealNames))
  }

  /** `nick_color`: the host's hash-based colour for a nick. */
  function NickColorName(host: Host, nick: string): (c: string)
    ensures c == host.nickColorName(nick)
  {
    host.nickColorName(nick)
  }

  /**
   * `_nick_color`: the host's own-nick colour for the workspace's own user,
   * and the hashed colour of the space-free base name for everybody else.
   */
  function NickColor(host: Host, workspace: Workspace, id: string, info: UserInfo): (c: string)
    ensures id == workspace.myUserId ==> c == host.chatNickSelf
    ensures id != workspace.myUserId ==> c == host.nickColorName(NameWithoutSpaces(info, workspace.useRealNames))
  {
    if id == workspace.myUserId then host.chatNickSelf
    else NickColorName(host, NameWithoutSpaces(info, workspace.useRealNames))
  }

  /** The own user's colour does not depend on the profile at all. */
  lemma SelfColorIgnoresProfile(host: Host, workspace: Workspace, info1: UserInfo, info2: UserInfo)
    ensures NickColor(host, workspace, workspace.myUserId, info1)
         == NickColor(host, workspace, workspace.myUserId, info2)
  {
  }

  /**
   * Any two other users whose base names differ only in spaces get the same
   * colour, whatever their ids.
   */
  lemma OtherColorFollowsStrippedName(host: Host, workspace: Workspace, id1: string, id2: string, info1: UserInfo, info2: UserInfo)
    requires id1 != workspace.myUserId && id2 != workspace.myUserId
    requires RemoveSpaces(NameFromProfile(info1, workspace.useRealNames))
          == RemoveSpaces(NameFromProfile(info2, workspace.useRealNames))
    ensures NickColor(host, workspace, id1, info1) == NickColor(host, workspace, id2, info2)
  {
  }

  /** The external-user suffix a user's nick ends with: empty for members of the workspace's team. */
  function ExternalSuffix(look: Look, workspace: Workspace, info: UserInfo): (s: string)
    ensures info.profile.team == workspace.id ==> s == ""
    ensures info.profile.team != workspace.id ==> s == look.externalUserSuffix
  {
    if info.profile.team != workspace.id then look.externalUserSuffix else ""
  }

  /**
   * `SlackUser.nick`: the space-free base name, wrapped in the user's colour
   * when asked, followed by the external-user suffix when the profile's team
   * is not the workspace.
   */
  function UserNick(host: Host, look: Look, workspace: Workspace, id: string, info: UserInfo, colorize: bool): (r: string)
    ensures !colorize && info.profile.team == workspace.id ==>
                  r == NameWithoutSpaces(info, workspace.useRealNames)
    ensures !colorize && info.profile.team != workspace.id ==>
                  r == NameWithoutSpaces(info, workspace.useRealNames) + look.externalUserSuffix
    ensures colorize ==>
                  r == host.withColor(NickColor(host, workspace, id, info), NameWithoutSpaces(info, workspace.useRealNames))
                       + ExternalSuffix(look, workspace, info)
  {
    var nick := NameWithoutSpaces(info, workspace.useRealNames);
    var nick := if colorize then host.withColor(NickColor(host, workspace, id, info), nick) else nick;
    if info.profile.team != workspace.id then nick + look.externalUserSuffix else nick
  }

  /**
   * The coloured nick is determined by the uncoloured one: cut the suffix off
   * the uncoloured nick, wrap what is left, and put the same suffix back.
   * The suffix itself is never passed to `with_color`.
   */
  lemma ColorWrapsOnlyTheName(host: Host, look: Look, workspace: Workspace, id: string, info: UserInfo)
    ensures var plain := UserNick(host, look, workspace, id, info, false);
            var tail := ExternalSuffix(look, workspace, info);
            |plain| >= |tail|
            && plain[|plain| - |tail|..] == tail
            && ' ' !in plain[..|plain| - |tail|]
            && UserNick(host, look, workspace, id, info, true)
               == host.withColor(NickColor(host, workspace, id, info), plain[..|plain| - |tail|]) + tail
  {
    var name := NameWithoutSpaces(info, workspace.useRealNames);
    var tail := ExternalSuffix(look, workspace, info);
    var plain := UserNick(host, look, workspace, id, info, false);
    assert name + "" == name;
    assert plain == name + tail;
    assert plain[..|name|] == name;
    assert plain[|name|..] == tail;
  }

  /**
   * The uncoloured nick depends only on the profile and the configuration,
   * not on the host's colours.
   */
  lemma PlainUserNickIgnoresHost(host1: Host, host2: Host, look: Look, workspace: Workspace, id: string, info: UserInfo)
    ensures UserNick(host1, look, workspace, id, info, false) == UserNick(host2, look, workspace, id, info, false)
  {
  }

  /**
   * For an external user, cutting the suffix off once leaves exactly the
   * space-free base name: the suffix is appended once, at the end.
   */
  lemma ExternalSuffixOnce(host: Host, look: Look, workspace: Workspace, id: string, info: UserInfo)
    requires info.profile.team != workspace.id
    ensures var r := UserNick(host, look, workspace, id, info, false);
            |r| >= |look.externalUserSuffix|
            && r[|r| - |look.externalUserSuffix|..] == look.externalUserSuffix
            && r[..|r| - |look.externalUserSuffix|] == NameWithoutSpaces(info, workspace.useRealNames)
            && ' ' !in r[..|r| - |look.externalUserSuffix|]
  {
    var name := NameWithoutSpaces(info, workspace.useRealNames);
    var r := name + look.externalUserSuffix;
    assert r[..|name|] == name;
    assert r[|name|..] == look.externalUserSuffix;
  }

  /**
   * `format_bot_nick`: the name with every space removed, wrapped in its
   * hashed colour when asked, and always followed by the bot-user suffix.
   */
  function FormatBotNick(host: Host, look: Look, nick: string, colorize: bool): (r: string)
    ensures |r| >= |look.botUserSuffix| && r[|r| - |look.botUserSuffix|..] == look.botUserSuffix
    ensures !colorize ==> r == RemoveSpaces(nick) + look.botUserSuffix
    ensures colorize ==>
                  r == host.withColor(host.nickColorName(RemoveSpaces(nick)), RemoveSpaces(nick)) + look.botUserSuffix
  {
    var nick := RemoveSpaces(nick);
    var nick := if colorize then host.withColor(NickColorName(host, nick), nick) else nick;
    nick + look.botUserSuffix
  }

  /** Spaces in a bot's name never matter: stripping them first gives the same nick. */
  lemma BotNickIgnoresSpaces(host: Host, look: Look, nick: string, colorize: bool)
    ensures FormatBotNick(host, look, RemoveSpaces(nick), colorize) == FormatBotNick(host, look, nick, colorize)
  {
    RemoveSpacesIdempotent(nick);
  }

  /** Without colour, no space of the bot's name survives: every space left belongs to the suffix. */
  lemma PlainBotNickSpaces(host: Host, look: Look, nick: string)
    ensures var r := FormatBotNick(host, look, nick, false);
            RemoveSpaces(r) == RemoveSpaces(nick) + RemoveSpaces(look.botUserSuffix)
            && multiset(r)[' '] == multiset(look.botUserSuffix)[' ']
  {
    var stripped := RemoveSpaces(nick);
    RemoveSpacesAppend(stripped, look.botUserSuffix);
    assert multiset(stripped + look.botUserSuffix) == multiset(stripped) + multiset(look.botUserSuffix);
    assert multiset(stripped)[' '] == 0;
  }

  /**
   * A bot's nick is formatted as a user's nick would be for a user who is
   * neither the workspace's own user nor external, apart from the suffix:
   * both strip spaces and pick colours the same way.
   */
  lemma BotAndUserFormattingAgree(host: Host, look: Look, workspace: Workspace, id: string, info: UserInfo, colorize: bool)
    requires id != workspace.myUserId && info.profile.team == workspace.id
    ensures UserNick(host, look, workspace, id, info, colorize) + look.botUserSuffix
         == FormatBotNick(host, look, NameFromProfile(info, workspace.useRealNames), colorize)
  {
  }

  /** `SlackBot.nick`: the bot record's name formatted as a bot nick. */
  function BotNick(host: Host, look: Look, info: BotInfo, colorize: bool): (r: string)
    ensures |r| >= |look.botUserSuffix| && r[|r| - |look.botUserSuffix|..] == look.botUserSuffix
    ensures !colorize ==> r == RemoveSpaces(info.name) + look.botUserSuffix
  {
    FormatBotNick(host, look, info.name, colorize)
  }

  /**
   * A bot's nick never uses the own-nick colour: hosts that differ only in
   * that colour give the same nick.
   */
  lemma BotNickIgnoresSelfColor(host: Host, look: Look, info: BotInfo, colorize: bool, selfColor: string)
    ensures BotNick(host, look, info, colorize) == BotNick(host.(chatNickSelf := selfColor), look, info, colorize)
  {
  }

  /** Spaces inside a display name disappear. */
  lemma AliceExample()
    ensures RemoveSpaces("Alice B") == "AliceB"
  {
    assert "Alice B" == "Alice" + " B";
    RemoveSpacesAppend("Alice", " B");
    assert ' ' !in "Alice" && ' ' !in "B";
    assert " B"[1..] == "B";
  }

  /** A user in the workspace's team, with a display name and spaces in it. */
  lemma InternalUserExample(host: Host)
    ensures UserNick(host, Look(" [BOT]", "[ext]"), Workspace("T1", "U0", false), "U1",
                     UserInfo(Profile(Some("Alice B"), "T1"), None, "alice"), false)
         == "AliceB"
  {
    var info := UserInfo(Profile(Some("Alice B"), "T1"), None, "alice");
    assert NameFromProfile(info, false) == "Alice B";
    AliceExample();
    assert NameWithoutSpaces(info, false) == "AliceB";
  }

  /** The same user seen from another team's workspace gets the external suffix. */
  lemma ExternalUserExample(host: Host)
    ensures UserNick(host, Look(" [BOT]", "[ext]"), Workspace("T1", "U0", false), "U1",
                     UserInfo(Profile(Some("Alice B"), "T2"), None, "alice"), false)
         == "AliceB[ext]"
  {
    var info := UserInfo(Profile(Some("Alice B"), "T2"), None, "alice");
    assert NameFromProfile(info, false) == "Alice B";
    AliceExample();
    assert NameWithoutSpaces(info, false) == "AliceB";
    assert "AliceB" + "[ext]" == "AliceB[ext]";
  }

  /** A bot's name loses its space; the suffix keeps its own. */
  lemma BotExample(host: Host)
    ensures FormatBotNick(host, Look(" [BOT]", "[ext]"), "My Bot", false) == "MyBot [BOT]"
  {
    assert RemoveSpaces("My Bot") == "MyBot" by {
      assert "My Bot" == "My" + " Bot";
      RemoveSpacesAppend("My", " Bot");
      assert ' ' !in "My" && ' ' !in "Bot";
      assert " Bot"[1..] == "Bot";
    }
    assert "MyBot" + " [BOT]" == "MyBot [BOT]";
  }
}

module Entries {
  import opened SlackTypes
  import Nicks

  /** The info fetch a constructor launches when it is given no info record. */
  datatype FetchTask = FetchUserInfo(userId: string) | FetchBotInfo(botId: string)

  /** A human user of a workspace. */
  class SlackUser {
    const workspace: Workspace
    const id: string
    var info: Option<UserInfo>
    var setInfoTask: Option<FetchTask>

    /** Stores a supplied info record and launches no fetch; otherwise records the fetch. */
    constructor (workspace: Workspace, id: string, info: Option<UserInfo>)
      ensures this.workspace == workspace && this.id == id
      ensures info.Some? ==> this.info == info && setInfoTask == None
      ensures info.None? ==> this.info == None && setInfoTask == Some(FetchUserInfo(id))
    {
      this.workspace := workspace;
      this.id := id;
      if info.Some? {
        this.info := info;
        setInfoTask := None;
      } else {
        this.info := None;
        setInfoTask := Some(FetchUserInfo(id));
      }
    }

    /** The user's nick, computed step by step from the stored info. */
    method Nick(host: Host, look: Look, colorize: bool) returns (nick: string)
      requires info.Some?
      ensures nick == Nicks.UserNick(host, look, workspace, id, info.value, colorize)
      ensures info.value.profile.team != workspace.id ==>
                    |nick| >= |look.externalUserSuffix|
                    && nick[|nick| - |look.externalUserSuffix|..] == look.externalUserSuffix
    {
      nick := Nicks.NameWithoutSpaces(info.value, workspace.useRealNames);
      if colorize {
        nick := host.withColor(Nicks.NickColor(host, workspace, id, info.value), nick);
      }
      if info.value.profile.team != workspace.id {
        nick := nick + look.externalUserSuffix;
      }
    }
  }

  /** A bot of a workspace. */
  class SlackBot {
    const workspace: Workspace
    const id: string
    var info: Option<BotInfo>
    var setInfoTask: Option<FetchTask>

    /** Stores a supplied info record and launches no fetch; otherwise records the fetch. */
    constructor (workspace: Workspace, id: string, info: Option<BotInfo>)
      ensures this.workspace == workspace && this.id == id
      ensures info.Some? ==> this.info == info && setInfoTask == None
      ensures info.None? ==> this.info == None && setInfoTask == Some(FetchBotInfo(id))
    {
      this.workspace := workspace;
      this.id := id;
      if info.Some? {
        this.info := info;
        setInfoTask := None;
      } else {
        this.info := None;
        setInfoTask := Some(FetchBotInfo(id));
      }
    }

    /**
     * The bot's nick: its name formatted as a bot nick, with the bot-user
     * suffix at the end and nothing taken from the workspace.
     */
    method Nick(host: Host, look: Look, colorize: bool) returns (nick: string)
      requires info.Some?
      ensures nick == Nicks.FormatBotNick(host, look, info.value.name, colorize)
      ensures |nick| >= |look.botUserSuffix| && nick[|nick| - |look.botUserSuffix|..] == look.botUserSuffix
    {
      nick := Nicks.FormatBotNick(host, look, info.value.name, colorize);
    }
  }
}
