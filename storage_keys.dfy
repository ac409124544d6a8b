/** The browser-storage keys of the application. */
module StorageKeys {

  const StoryHistoryPrefix: string := "storywriterbot.history.v1"
  const AuthSessionKey: string := "storywriterbot.auth.v1"
  const AuthUsersKey: string := "storywriterbot.users.v1"

  /** The key of one user's draft history: the prefix, a dot, then the user id. */
  function StoryHistoryKeyForUser(userId: string): (k: string)
    ensures |k| == |StoryHistoryPrefix| + 1 + |userId|
    ensures StoryHistoryPrefix + "." <= k
    ensures k[|StoryHistoryPrefix| + 1..] == userId
  {
    StoryHistoryPrefix + "." + userId
  }

  /** Distinct users never share a history key. */
  lemma HistoryKeyInjective(a: string, b: string)
    requires StoryHistoryKeyForUser(a) == StoryHistoryKeyForUser(b)
    ensures a == b
  {
    var n := |StoryHistoryPrefix| + 1;
    assert a == StoryHistoryKeyForUser(a)[n..];
  }

  /** The three fixed keys are pairwise different. */
  lemma FixedKeysDistinct()
    ensures StoryHistoryPrefix != AuthSessionKey
    ensures StoryHistoryPrefix != AuthUsersKey
    ensures AuthSessionKey != AuthUsersKey
  {
    assert StoryHistoryPrefix[15] != AuthSessionKey[15];
    assert StoryHistoryPrefix[15] != AuthUsersKey[15];
    assert AuthSessionKey[15] != AuthUsersKey[15];
  }

  /** No user's history key collides with the session key or the users key. */
  lemma HistoryKeyIsNotAuthKey(userId: string)
    ensures StoryHistoryKeyForUser(userId) != AuthSessionKey
    ensures StoryHistoryKeyForUser(userId) != AuthUsersKey
  {
    var k := StoryHistoryKeyForUser(userId);
    assert k[15] == StoryHistoryPrefix[15] == 'h';
    assert AuthSessionKey[15] == 'a' && AuthUsersKey[15] == 'u';
  }
}
