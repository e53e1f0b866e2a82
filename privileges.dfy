/**
 * `check_drop_privs` (bin/src/hickory-dns.rs): a process running as root
 * looks up the target user and group, then switches its group id and its
 * user id to theirs. Both set-id calls are issued once the lookups succeed;
 * the group switch comes first, because after the user switch the process
 * would lack the privilege to change its group.
 */
module Privileges {
  import opened Basics
  import opened Numbers
  import opened Host
  import opened ServerConfig

  /** The user and group the server runs as when the configuration names none. */
  const DEFAULT_USER: string := "nobody"
  const DEFAULT_GROUP: string := "nobody"

  /** `CString::new` fails exactly on an interior NUL byte. */
  predicate IsCString(s: string)
  {
    '\0' !in s
  }

  predicate IsRoot(ids: Ids)
  {
    ids.uid == 0 || ids.euid == 0
  }

  /** What `check_drop_privs` issues, returns and leaves as the process identity. */
  datatype DropRun = DropRun(effects: seq<Effect>, result: Result<(), DropError>, ids: Ids)

  /** The lookups, issued together before either result is checked. */
  function Lookups(user: string, group: string): seq<Effect>
  {
    [GetPwNam(user), GetGrNam(group)]
  }

  /**
   * `check_drop_privs(user, group)` from identity `ids`, with `ok` deciding
   * the set-id calls issued from trace position `pos`.
   */
  function DropPrivs(user: string, group: string, ids: Ids, passwd: map<string, u32>, groups: map<string, u32>,
                     ok: Oracle, pos: nat): (r: DropRun)
    // not running as root: nothing is looked up or changed
    ensures !IsRoot(ids) ==> r == DropRun([], Ok(()), ids)
    // a name that is not a C string fails before any lookup
    ensures IsRoot(ids) && !IsCString(user) ==> r == DropRun([], Err(UserNotCString(user)), ids)
    ensures IsRoot(ids) && IsCString(user) && !IsCString(group) ==> r == DropRun([], Err(GroupNotCString(group)), ids)
    // the user lookup is reported before the group lookup, and a failed lookup changes nothing
    ensures IsRoot(ids) && IsCString(user) && IsCString(group) && user !in passwd ==>
      r == DropRun(Lookups(user, group), Err(UnknownUser(user)), ids)
    ensures IsRoot(ids) && IsCString(user) && IsCString(group) && user in passwd && group !in groups ==>
      r == DropRun(Lookups(user, group), Err(UnknownGroup(group)), ids)
    // success as root means the process now runs as the target user and group: effective ids
    // always, real ids too when it started with effective user id 0
    ensures IsRoot(ids) && r.result.Ok? ==>
      && user in passwd && group in groups
      && r.ids.euid == passwd[user] && r.ids.egid == groups[group]
      && r.ids.uid == (if ids.euid == 0 then passwd[user] else ids.uid)
      && r.ids.gid == (if ids.euid == 0 then groups[group] else ids.gid)
  {
    if !IsRoot(ids) then DropRun([], Ok(()), ids)
    else if !IsCString(user) then DropRun([], Err(UserNotCString(user)), ids)
    else if !IsCString(group) then DropRun([], Err(GroupNotCString(group)), ids)
    else if user !in passwd then DropRun(Lookups(user, group), Err(UnknownUser(user)), ids)
    else if group !in groups then DropRun(Lookups(user, group), Err(UnknownGroup(group)), ids)
    else
      var gid := groups[group];
      var uid := passwd[user];
      var gidSet := ok(pos + 2, SetGid(gid));
      var uidSet := ok(pos + 3, SetUid(uid));
      var afterGid := if gidSet then GidSet(ids, gid) else ids;
      var afterUid := if uidSet then UidSet(afterGid, uid) else afterGid;
      var result := if !gidSet then Err(SetGidFailed) else if !uidSet then Err(SetUidFailed) else Ok(());
      DropRun(Lookups(user, group) + [SetGid(gid), SetUid(uid)], result, afterUid)
  }

  /**
   * A set-id call is issued only after both lookups succeed, and then both
   * are, setgid first; a setgid failure is reported even when setuid fails
   * too.
   */
  lemma SetIdCalls(user: string, group: string, ids: Ids, passwd: map<string, u32>, groups: map<string, u32>,
                   ok: Oracle, pos: nat)
    ensures var r := DropPrivs(user, group, ids, passwd, groups, ok, pos);
      (exists k :: 0 <= k < |r.effects| && (r.effects[k].SetGid? || r.effects[k].SetUid?)) ==>
        && IsRoot(ids) && user in passwd && group in groups
        && r.effects == Lookups(user, group) + [SetGid(groups[group]), SetUid(passwd[user])]
    ensures var r := DropPrivs(user, group, ids, passwd, groups, ok, pos);
      |r.effects| == 4 && !ok(pos + 2, r.effects[2]) ==> r.result == Err(SetGidFailed)
  {
  }

  /** `check_drop_privs`. */
  method CheckDropPrivs(host: Host, user: string, group: string) returns (r: Result<(), DropError>)
    modifies host
    ensures var run := DropPrivs(user, group, old(host.ids), host.passwd, host.groups, host.ok, |old(host.trace)|);
      host.trace == old(host.trace) + run.effects && r == run.result && host.ids == run.ids
  {
    if !IsRoot(host.ids) {
      return Ok(());
    }
    if !IsCString(user) {
      return Err(UserNotCString(user));
    }
    if !IsCString(group) {
      return Err(GroupNotCString(group));
    }
    var _ := host.Perform(GetPwNam(user));
    var _ := host.Perform(GetGrNam(group));
    var userInfo := if user in host.passwd then Some(host.passwd[user]) else None;
    var groupInfo := if group in host.groups then Some(host.groups[group]) else None;
    if userInfo.None? {
      return Err(UnknownUser(user));
    }
    if groupInfo.None? {
      return Err(UnknownGroup(group));
    }
    var gidSet := host.SetGroupId(groupInfo.value);
    var uidSet := host.SetUserId(userInfo.value);
    if !gidSet {
      return Err(SetGidFailed);
    }
    if !uidSet {
      return Err(SetUidFailed);
    }
    return Ok(());
  }
}
