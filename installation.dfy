/** The client and the name-service module together: the NSS hooks read the
    files `write_state` installs under the default destination. */
module Installation {
  import opened Outcomes
  import opened Text
  import opened Records
  import opened Filesystem
  import opened Client
  import Nss

  /** What a process that may open every file reads: the text of each file. */
  function Contents(files: Files): Nss.Disk {
    map p | p in files :: files[p].content
  }

  /** With no `destination` configured, the client writes the record files
      exactly where the NSS module reads them. */
  lemma {:induction false} DefaultPathsMatch(config: ClientConfig)
    requires config.destination.None?
    ensures LivePath(config, "passwd") == Nss.PASSWD_PATH
    ensures LivePath(config, "group") == Nss.GROUP_PATH
    ensures LivePath(config, "shadow") == Nss.SHADOW_PATH
  {
    assert DEFAULT_DESTINATION + "/" + "passwd" == Nss.PASSWD_PATH;
    assert DEFAULT_DESTINATION + "/" + "group" == Nss.GROUP_PATH;
    assert DEFAULT_DESTINATION + "/" + "shadow" == Nss.SHADOW_PATH;
  }

  /** Installed record files, seen by the NSS module. */
  lemma {:induction false} InstalledDisk(config: ClientConfig, state: State, files: Files)
    requires config.destination.None?
    requires RecordFilesInstalled(config, state, files)
    ensures var disk := Contents(files);
            && Nss.PASSWD_PATH in disk && disk[Nss.PASSWD_PATH] == Render(state.users, FormatUser)
            && Nss.GROUP_PATH in disk && disk[Nss.GROUP_PATH] == Render(state.groups, FormatGroup)
            && Nss.SHADOW_PATH in disk && disk[Nss.SHADOW_PATH] == Render(state.shadow, FormatShadow)
  {
    DefaultPathsMatch(config);
  }

  /** After a poll that received `NewState(v, state)` and wrote it without
      failure, the NSS module lists exactly the state's users, groups and
      shadow entries, in order, when every record survives its line format. */
  lemma {:induction false} PolledStateServed(config: ClientConfig, env: Env, files: Files, id: StateId,
                                             v: StateId, state: State)
    requires config.destination.None?
    requires MountFilesApart(config, state.mounts)
    requires NoLostWrites(env)
    requires forall i :: 0 <= i < |state.users| ==> WritableUser(state.users[i])
    requires forall i :: 0 <= i < |state.groups| ==> WritableGroup(state.groups[i])
    requires forall i :: 0 <= i < |state.shadow| ==> WritableShadow(state.shadow[i])
    requires PollStep(config, env, files, id, Ok(Some(NewState(v, state)))).outcome.Ok?
    ensures var disk := Contents(PollStep(config, env, files, id, Ok(Some(NewState(v, state)))).files);
            var users, groups, shadow := Nss.PasswdEntries(disk), Nss.GroupEntries(disk), Nss.ShadowEntries(disk);
            && users.Ok? && users.value.Success? && |users.value.value| == |state.users|
            && (forall i :: 0 <= i < |state.users| ==> users.value.value[i] == Nss.ToPasswd(state.users[i]))
            && groups.Ok? && groups.value.Success? && |groups.value.value| == |state.groups|
            && (forall i :: 0 <= i < |state.groups| ==> groups.value.value[i] == Nss.ToGroupEntry(state.groups[i]))
            && shadow.Ok? && shadow.value.Success? && |shadow.value.value| == |state.shadow|
            && (forall i :: 0 <= i < |state.shadow| ==> shadow.value.value[i] == Nss.ToShadowEntry(state.shadow[i]))
  {
    PollAdoptsNewState(config, env, files, id, v, state);
    var result := PollStep(config, env, files, id, Ok(Some(NewState(v, state)))).files;
    InstalledDisk(config, state, result);
    var disk := Contents(result);
    Nss.InstalledPasswdEntries(disk, state.users);
    Nss.InstalledGroupEntries(disk, state.groups);
    Nss.InstalledShadowEntries(disk, state.shadow);
  }
}
