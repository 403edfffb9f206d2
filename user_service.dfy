// UserServiceImpl: users by id, each with a list of AI model configurations of
// which the service tries to keep one the default. Adding or updating a default
// configuration, or choosing one, clears the flag on all the others; deleting the
// default passes the flag to the first configuration left. Clock readings, the
// password encoder's output and the ids the store draws are parameters.
module UserService {
  import opened Wrappers

  /** An AI model configuration; isDefault is a Boolean that may be null. Its
      other fields are carried along unchanged. The User and AIModelConfig
      classes are not part of this model: both shapes are rebuilt from the
      getters and setters UserServiceImpl calls. */
  datatype AIModelConfig = AIModelConfig(provider: string, modelName: string, apiKey: string,
                                         apiEndpoint: Option<string>, isDefault: Option<bool>)

  /** A user, with the configuration list the service edits. */
  datatype User = User(id: Option<string>, username: string, password: string, email: string,
                       displayName: Option<string>, avatar: Option<string>, roles: seq<string>,
                       preferences: map<string, string>, aiModelConfigs: seq<AIModelConfig>,
                       createdAt: Option<int>, updatedAt: Option<int>)

  /** Boolean.TRUE.equals(isDefault). */
  predicate IsDefault(c: AIModelConfig) { c.isDefault == Some(true) }

  /** At most one configuration of the list is the default. */
  predicate AtMostOneDefault(cs: seq<AIModelConfig>)
  {
    forall i, j :: 0 <= i < |cs| && 0 <= j < |cs| && IsDefault(cs[i]) && IsDefault(cs[j]) ==> i == j
  }

  /** The configuration at i is the default and no other is. */
  predicate OnlyDefaultAt(cs: seq<AIModelConfig>, i: int)
  {
    0 <= i < |cs| && IsDefault(cs[i]) && forall j :: 0 <= j < |cs| && j != i ==> !IsDefault(cs[j])
  }

  // ------------------------------------------------------------ list edits

  /** The list after configs.forEach(c -> c.setIsDefault(false)). */
  function Cleared(cs: seq<AIModelConfig>): (r: seq<AIModelConfig>)
    ensures |r| == |cs|
    ensures forall i :: 0 <= i < |r| ==> r[i] == cs[i].(isDefault := Some(false))
  {
    if cs == [] then [] else Cleared(cs[..|cs| - 1]) + [cs[|cs| - 1].(isDefault := Some(false))]
  }

  /** The forEach that clears the flags, configuration by configuration. */
  method ClearDefaults(cs: seq<AIModelConfig>) returns (r: seq<AIModelConfig>)
    ensures r == Cleared(cs)
  {
    r := cs;
    for i := 0 to |cs|
      invariant |r| == |cs|
      invariant forall k :: 0 <= k < i ==> r[k] == cs[k].(isDefault := Some(false))
      invariant forall k :: i <= k < |cs| ==> r[k] == cs[k]
    {
      r := r[i := r[i].(isDefault := Some(false))];
    }
  }

  /** addAIModelConfig on the list: with an empty list or a default newcomer the
      other flags are cleared; the newcomer goes at the end. */
  function WithConfigAdded(cs: seq<AIModelConfig>, config: AIModelConfig): (r: seq<AIModelConfig>)
  {
    (if cs == [] || IsDefault(config) then Cleared(cs) else cs) + [config]
  }

  /** updateAIModelConfig on the list: an index out of range changes nothing;
      otherwise a default newcomer clears every flag, then takes the place. */
  function WithConfigUpdated(cs: seq<AIModelConfig>, index: int, config: AIModelConfig): (r: seq<AIModelConfig>)
  {
    if 0 <= index < |cs| then (if IsDefault(config) then Cleared(cs) else cs)[index := config] else cs
  }

  /** deleteAIModelConfig on the list: an index out of range changes nothing;
      otherwise the entry goes, and if it was the default the first one left
      becomes the default. */
  function WithConfigDeleted(cs: seq<AIModelConfig>, index: int): (r: seq<AIModelConfig>)
  {
    if 0 <= index < |cs| then
      var rest := cs[..index] + cs[index + 1..];
      if IsDefault(cs[index]) && rest != [] then rest[0 := rest[0].(isDefault := Some(true))] else rest
    else cs
  }

  /** setDefaultAIModelConfig on the list: an index out of range changes nothing;
      otherwise every flag is cleared and the one at the index set. */
  function WithDefaultAt(cs: seq<AIModelConfig>, index: int): (r: seq<AIModelConfig>)
  {
    if 0 <= index < |cs| then Cleared(cs)[index := cs[index].(isDefault := Some(true))] else cs
  }

  // ------------------------------------------------------------ properties

  /** Adding appends the configuration as given and keeps the others but for
      their flags; a default newcomer is then the only default, and a list with
      at most one default keeps that property. */
  lemma AddedConfigComesLast(cs: seq<AIModelConfig>, config: AIModelConfig)
    ensures var r := WithConfigAdded(cs, config);
      |r| == |cs| + 1 && r[|cs|] == config
      && (forall i :: 0 <= i < |cs| ==> r[i].(isDefault := cs[i].isDefault) == cs[i])
    ensures IsDefault(config) ==> OnlyDefaultAt(WithConfigAdded(cs, config), |cs|)
    ensures AtMostOneDefault(cs) ==> AtMostOneDefault(WithConfigAdded(cs, config))
  {
    var r := WithConfigAdded(cs, config);
    assert forall i :: 0 <= i < |cs| ==> r[i] == (if cs == [] || IsDefault(config) then Cleared(cs) else cs)[i];
  }

  /** Updating in range puts the configuration at the index and keeps the length;
      a default newcomer is then the only default; at most one default stays at
      most one. */
  lemma UpdatedConfigTakesItsPlace(cs: seq<AIModelConfig>, index: int, config: AIModelConfig)
    requires 0 <= index < |cs|
    ensures var r := WithConfigUpdated(cs, index, config);
      |r| == |cs| && r[index] == config
      && (forall i :: 0 <= i < |cs| && i != index ==> r[i].(isDefault := cs[i].isDefault) == cs[i])
    ensures IsDefault(config) ==> OnlyDefaultAt(WithConfigUpdated(cs, index, config), index)
    ensures AtMostOneDefault(cs) ==> AtMostOneDefault(WithConfigUpdated(cs, index, config))
  {
  }

  /** An index out of range leaves every list operation without effect. */
  lemma OutOfRangeChangesNothing(cs: seq<AIModelConfig>, index: int, config: AIModelConfig)
    requires !(0 <= index < |cs|)
    ensures WithConfigUpdated(cs, index, config) == cs
    ensures WithConfigDeleted(cs, index) == cs
    ensures WithDefaultAt(cs, index) == cs
  {
  }

  /** Deleting removes exactly the entry at the index; when it was the only
      default and others remain, the first one left is now the only default; a
      list with at most one default keeps that property. */
  lemma DeletedDefaultPassesToFirst(cs: seq<AIModelConfig>, index: int)
    requires 0 <= index < |cs|
    ensures var r := WithConfigDeleted(cs, index);
      |r| == |cs| - 1
      && (forall i :: 0 <= i < |r| ==> r[i].(isDefault := (cs[..index] + cs[index + 1..])[i].isDefault)
                                        == (cs[..index] + cs[index + 1..])[i])
    ensures AtMostOneDefault(cs) && IsDefault(cs[index]) && |cs| > 1 ==> OnlyDefaultAt(WithConfigDeleted(cs, index), 0)
    ensures AtMostOneDefault(cs) ==> AtMostOneDefault(WithConfigDeleted(cs, index))
  {
    var rest := cs[..index] + cs[index + 1..];
    assert forall i :: 0 <= i < |rest| ==> rest[i] == cs[if i < index then i else i + 1];
    var r := WithConfigDeleted(cs, index);
    if AtMostOneDefault(cs) && IsDefault(cs[index]) {
      assert forall i :: 0 <= i < |rest| ==> !IsDefault(rest[i]);
    }
  }

  /** Choosing a default makes that configuration the only default and changes
      nothing else. */
  lemma ChosenDefaultIsTheOnlyOne(cs: seq<AIModelConfig>, index: int)
    requires 0 <= index < |cs|
    ensures OnlyDefaultAt(WithDefaultAt(cs, index), index)
    ensures var r := WithDefaultAt(cs, index);
      |r| == |cs| && forall i :: 0 <= i < |cs| ==> r[i].(isDefault := cs[i].isDefault) == cs[i]
  {
  }

  // ---------------------------------------------------------------- the user

  /** The fields updateUser copies: display name, avatar and preferences, with
      the time; password, roles, configurations and the rest are kept. */
  function WithProfile(existing: User, user: User, now: int): (r: User)
    ensures r.displayName == user.displayName && r.avatar == user.avatar && r.preferences == user.preferences
    ensures r.updatedAt == Some(now)
    ensures r.(displayName := existing.displayName, avatar := existing.avatar,
               preferences := existing.preferences, updatedAt := existing.updatedAt) == existing
  {
    existing.(displayName := user.displayName, avatar := user.avatar, preferences := user.preferences,
              updatedAt := Some(now))
  }

  /** The user repository with the service's operations on it. */
  class UserRepository {
    var users: map<string, User>

    /** Every user is stored under its id. */
    ghost predicate Valid()
      reads this
    {
      forall k :: k in users ==> users[k].id == Some(k)
    }

    constructor ()
      ensures users == map[] && Valid()
    {
      users := map[];
    }

    /** createUser: both times set to now and the password replaced by its
        encoding, then saved under its id or a drawn one. */
    method CreateUser(user: User, now: int, encodedPassword: string, generated: string) returns (saved: User)
      requires Valid()
      modifies this
      ensures Valid()
      ensures saved == user.(createdAt := Some(now), updatedAt := Some(now), password := encodedPassword,
                             id := Some(if user.id.Some? then user.id.value else generated))
      ensures users == old(users)[saved.id.value := saved]
    {
      var key := if user.id.Some? then user.id.value else generated;
      saved := user.(createdAt := Some(now), updatedAt := Some(now), password := encodedPassword, id := Some(key));
      users := users[key := saved];
    }

    /** updateUser: nothing for an unknown id. */
    method UpdateUser(id: string, user: User, now: int) returns (r: Option<User>)
      requires Valid()
      modifies this
      ensures Valid()
      ensures id !in old(users) ==> r.None? && users == old(users)
      ensures id in old(users) ==>
        r == Some(WithProfile(old(users)[id], user, now)) && users == old(users)[id := r.value]
    {
      if id !in users {
        return None;
      }
      var saved := WithProfile(users[id], user, now);
      users := users[id := saved];
      r := Some(saved);
    }

    /** deleteUser. */
    method DeleteUser(id: string)
      requires Valid()
      modifies this
      ensures Valid()
      ensures users == old(users) - {id}
    {
      users := users - {id};
    }

    /** addAIModelConfig: nothing for an unknown user. */
    method AddAIModelConfig(userId: string, config: AIModelConfig, now: int) returns (r: Option<User>)
      requires Valid()
      modifies this
      ensures Valid()
      ensures userId !in old(users) ==> r.None? && users == old(users)
      ensures userId in old(users) ==>
        var u := old(users)[userId];
        r == Some(u.(aiModelConfigs := WithConfigAdded(u.aiModelConfigs, config), updatedAt := Some(now)))
        && users == old(users)[userId := r.value]
    {
      if userId !in users {
        return None;
      }
      var user := users[userId];
      var configs := user.aiModelConfigs;
      if configs == [] || IsDefault(config) {
        configs := ClearDefaults(configs);
      }
      configs := configs + [config];
      user := user.(aiModelConfigs := configs, updatedAt := Some(now));
      users := users[userId := user];
      r := Some(user);
    }

    /** updateAIModelConfig: nothing for an unknown user; an index out of range
        saves the user as it was. */
    method UpdateAIModelConfig(userId: string, index: int, config: AIModelConfig, now: int) returns (r: Option<User>)
      requires Valid()
      modifies this
      ensures Valid()
      ensures userId !in old(users) ==> r.None? && users == old(users)
      ensures userId in old(users) ==>
        var u := old(users)[userId];
        r == Some(if 0 <= index < |u.aiModelConfigs|
                  then u.(aiModelConfigs := WithConfigUpdated(u.aiModelConfigs, index, config), updatedAt := Some(now))
                  else u)
        && users == old(users)[userId := r.value]
    {
      if userId !in users {
        return None;
      }
      var user := users[userId];
      var configs := user.aiModelConfigs;
      if 0 <= index < |configs| {
        if IsDefault(config) {
          configs := ClearDefaults(configs);
        }
        configs := configs[index := config];
        user := user.(aiModelConfigs := configs, updatedAt := Some(now));
      }
      users := users[userId := user];
      r := Some(user);
    }

    /** deleteAIModelConfig: nothing for an unknown user; an index out of range
        saves the user as it was. */
    method DeleteAIModelConfig(userId: string, index: int, now: int) returns (r: Option<User>)
      requires Valid()
      modifies this
      ensures Valid()
      ensures userId !in old(users) ==> r.None? && users == old(users)
      ensures userId in old(users) ==>
        var u := old(users)[userId];
        r == Some(if 0 <= index < |u.aiModelConfigs|
                  then u.(aiModelConfigs := WithConfigDeleted(u.aiModelConfigs, index), updatedAt := Some(now))
                  else u)
        && users == old(users)[userId := r.value]
    {
      if userId !in users {
        return None;
      }
      var user := users[userId];
      var configs := user.aiModelConfigs;
      if 0 <= index < |configs| {
        var wasDefault := IsDefault(configs[index]);
        configs := configs[..index] + configs[index + 1..];
        if wasDefault && configs != [] {
          configs := configs[0 := configs[0].(isDefault := Some(true))];
        }
        user := user.(aiModelConfigs := configs, updatedAt := Some(now));
      }
      users := users[userId := user];
      r := Some(user);
    }

    /** setDefaultAIModelConfig: nothing for an unknown user; an index out of
        range saves the user as it was. */
    method SetDefaultAIModelConfig(userId: string, index: int, now: int) returns (r: Option<User>)
      requires Valid()
      modifies this
      ensures Valid()
      ensures userId !in old(users) ==> r.None? && users == old(users)
      ensures userId in old(users) ==>
        var u := old(users)[userId];
        r == Some(if 0 <= index < |u.aiModelConfigs|
                  then u.(aiModelConfigs := WithDefaultAt(u.aiModelConfigs, index), updatedAt := Some(now))
                  else u)
        && users == old(users)[userId := r.value]
    {
      if userId !in users {
        return None;
      }
      var user := users[userId];
      var configs := user.aiModelConfigs;
      if 0 <= index < |configs| {
        var chosen := configs[index];
        configs := ClearDefaults(configs);
        configs := configs[index := chosen.(isDefault := Some(true))];
        user := user.(aiModelConfigs := configs, updatedAt := Some(now));
      }
      users := users[userId := user];
      r := Some(user);
    }

    /** getUserAIModelConfigs: the list, or nothing for an unknown user. */
    function UserAIModelConfigs(userId: string): (r: seq<AIModelConfig>)
      reads this
      ensures userId in users ==> r == users[userId].aiModelConfigs
      ensures userId !in users ==> r == []
    {
      if userId in users then users[userId].aiModelConfigs else []
    }
  }
}
