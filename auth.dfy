/**
 * src/auth.py: registration and login against the users table. The table
 * becomes a map from username (the UNIQUE column) to the rest of the row;
 * the salted PBKDF2 digest is a function the store is built with, and the
 * random salt and the clock are parameters.
 */
module Auth {
  import opened Common
  import opened Text

  const USERNAME_EMPTY: string := "用户名不能为空"
  const USERNAME_SHORT: string := "用户名至少 2 个字符"
  const PASSWORD_SHORT: string := "密码至少 6 位"
  const EMAIL_EMPTY: string := "邮箱不能为空"
  const PHONE_EMPTY: string := "手机号不能为空"
  const REGISTERED: string := "注册成功"
  const DUPLICATE: string := "用户名已存在"
  const CREDENTIALS_EMPTY: string := "用户名和密码不能为空"
  const CREDENTIALS_WRONG: string := "用户名或密码错误"
  const LOGGED_IN: string := "登录成功"

  const MIN_USERNAME: nat := 2
  const MIN_PASSWORD: nat := 6
  const SALT_LENGTH: nat := 32

  /** The hex digest of the key derivation (PBKDF2-HMAC-SHA256, 100000 rounds) of a password under a salt. */
  type Kdf = (string, string) -> string

  /** What `secrets.token_hex(16)` yields: 32 lower-case hexadecimal digits. */
  predicate IsSaltToken(salt: string)
  {
    |salt| == SALT_LENGTH && forall i :: 0 <= i < |salt| ==> salt[i] in "0123456789abcdef"
  }

  /** `_hash_password` with its salt given: the salt, a '$' and the digest. */
  function HashPassword(password: string, salt: string, kdf: Kdf): (stored: string)
    requires IsSaltToken(salt)
    ensures SplitOnce(stored, '$') == Some((salt, kdf(password, salt)))
  {
    assert '$' !in salt by {
      assert forall i :: 0 <= i < |salt| ==> salt[i] != '$';
    }
    SplitOnceRoundTrip(salt, '$', kdf(password, salt));
    salt + "$" + kdf(password, salt)
  }

  /**
   * `_verify_password`: split the stored text at its first '$' into salt
   * and digest and compare the digest with the password's; a stored text
   * without '$' makes the unpacking raise, which answers false.
   */
  function VerifyPassword(password: string, stored: string, kdf: Kdf): (ok: bool)
    ensures '$' !in stored ==> !ok
    ensures ok ==> exists salt, digest :: '$' !in salt && stored == salt + "$" + digest && kdf(password, salt) == digest
  {
    match SplitOnce(stored, '$')
    case None => false
    case Some((salt, digest)) =>
      assert stored == salt + "$" + digest;
      kdf(password, salt) == digest
  }

  /** A password verifies against its own hash, and against any hash whose digest it reproduces. */
  lemma VerifyHashed(password: string, candidate: string, salt: string, kdf: Kdf)
    requires IsSaltToken(salt)
    ensures VerifyPassword(candidate, HashPassword(password, salt, kdf), kdf) <==> kdf(candidate, salt) == kdf(password, salt)
    ensures VerifyPassword(password, HashPassword(password, salt, kdf), kdf)
  {
  }

  /** The stored row of a user: the table's columns other than the username. */
  datatype StoredUser = StoredUser(id: nat, passwordHash: string, email: string, phone: string, createdAt: string)

  /** The dictionary login returns. */
  datatype UserInfo = UserInfo(id: nat, username: string, email: string, phone: string, createdAt: string)

  /** A username as registration leaves it: stripped and at least two characters. */
  predicate IsStoredName(name: string)
  {
    Strip(name) == name && |name| >= MIN_USERNAME
  }

  /**
   * The first failing registration check on the stripped username, email
   * and phone and the raw password, or None when all pass.
   */
  function RegisterError(username: string, password: string, email: string, phone: string): (e: Option<string>)
    ensures e.None? <==>
      |Strip(username)| >= MIN_USERNAME && |password| >= MIN_PASSWORD && Strip(email) != "" && Strip(phone) != ""
    ensures e == Some(USERNAME_EMPTY) <==> Strip(username) == ""
    ensures e == Some(USERNAME_SHORT) <==> |Strip(username)| == 1
    ensures e == Some(PASSWORD_SHORT) <==> |Strip(username)| >= MIN_USERNAME && |password| < MIN_PASSWORD
    ensures e == Some(EMAIL_EMPTY) <==>
      |Strip(username)| >= MIN_USERNAME && |password| >= MIN_PASSWORD && Strip(email) == ""
    ensures e == Some(PHONE_EMPTY) <==>
      |Strip(username)| >= MIN_USERNAME && |password| >= MIN_PASSWORD && Strip(email) != "" && Strip(phone) == ""
  {
    var u := Strip(username);
    if u == "" then Some(USERNAME_EMPTY)
    else if |u| < MIN_USERNAME then Some(USERNAME_SHORT)
    else if password == "" || |password| < MIN_PASSWORD then Some(PASSWORD_SHORT)
    else if Strip(email) == "" then Some(EMAIL_EMPTY)
    else if Strip(phone) == "" then Some(PHONE_EMPTY)
    else None
  }

  /**
   * The table's invariant: every stored username is stripped and long
   * enough, every stored hash has the salt separator, and ids are
   * distinct and below the next AUTOINCREMENT id.
   */
  ghost predicate ValidTable(users: map<string, StoredUser>, nextId: nat)
  {
    && (forall name :: name in users ==> IsStoredName(name))
    && (forall name :: name in users ==> '$' in users[name].passwordHash && users[name].id < nextId)
    && (forall a, b :: a in users && b in users && a != b ==> users[a].id != users[b].id)
  }

  /** Inserting a new name with the next id keeps the invariant. */
  lemma InsertKeepsValid(users: map<string, StoredUser>, nextId: nat, name: string, row: StoredUser)
    requires ValidTable(users, nextId)
    requires IsStoredName(name) && name !in users
    requires '$' in row.passwordHash && row.id == nextId
    ensures ValidTable(users[name := row], nextId + 1)
  {
  }

  /**
   * What the invariant gives a login: a stored name is its own strip, so
   * logging in with exactly that name finds its row, and two different
   * names that log in reach two different ids, both already issued.
   */
  lemma LoginsReachDistinctRows(users: map<string, StoredUser>, nextId: nat, a: string, b: string)
    requires ValidTable(users, nextId)
    requires Strip(a) in users && Strip(b) in users && Strip(a) != Strip(b)
    ensures Strip(Strip(a)) == Strip(a)
    ensures users[Strip(a)].id != users[Strip(b)].id
    ensures users[Strip(a)].id < nextId && users[Strip(b)].id < nextId
  {
  }

  /** The users table. */
  class UserStore {
    const kdf: Kdf
    var users: map<string, StoredUser>
    /** The next AUTOINCREMENT id. */
    var nextId: nat

    ghost predicate Valid()
      reads this
    {
      ValidTable(users, nextId)
    }

    constructor(kdf: Kdf)
      ensures Valid()
      ensures this.kdf == kdf && users == map[] && nextId == 1
    {
      this.kdf := kdf;
      users := map[];
      nextId := 1;
    }

    /**
     * `register`: a failed check or a taken username leaves the table as
     * it was; otherwise the stripped username is inserted with the salted
     * hash, the stripped email and phone, the time and the next id.
     */
    method Register(username: string, password: string, email: string, phone: string, salt: string, now: string)
      returns (ok: bool, msg: string)
      requires Valid()
      requires IsSaltToken(salt)
      modifies this
      ensures Valid()
      ensures var e := RegisterError(username, password, email, phone);
        e.Some? ==> !ok && msg == e.value && users == old(users) && nextId == old(nextId)
      ensures var u := Strip(username);
        RegisterError(username, password, email, phone).None? && u in old(users) ==>
          !ok && msg == DUPLICATE && users == old(users) && nextId == old(nextId)
      ensures var u := Strip(username);
        RegisterError(username, password, email, phone).None? && u !in old(users) ==>
          && ok && msg == REGISTERED && nextId == old(nextId) + 1
          && users == old(users)[u := StoredUser(old(nextId), HashPassword(password, salt, kdf), Strip(email), Strip(phone), now)]
    {
      var e := RegisterError(username, password, email, phone);
      if e.Some? {
        return false, e.value;
      }
      var u := Strip(username);
      if u in users {
        return false, DUPLICATE;
      }
      StripIdempotent(username);
      var hash := HashPassword(password, salt, kdf);
      assert '$' in hash by {
        assert hash[SALT_LENGTH] == '$';
      }
      Insert(u, StoredUser(nextId, hash, Strip(email), Strip(phone), now));
      return true, REGISTERED;
    }

    /** The INSERT itself: a new row under a new name, with the next id. */
    method Insert(name: string, row: StoredUser)
      requires Valid()
      requires IsStoredName(name) && name !in users
      requires '$' in row.passwordHash && row.id == nextId
      modifies this
      ensures Valid()
      ensures users == old(users)[name := row] && nextId == old(nextId) + 1
    {
      InsertKeepsValid(users, nextId, name, row);
      users := users[name := row];
      nextId := nextId + 1;
    }

    /**
     * `login`: an empty stripped username or an empty password is refused
     * first; then an unknown username and a wrong password get the same
     * answer; otherwise the user's row is returned.
     */
    method Login(username: string, password: string) returns (ok: bool, user: Option<UserInfo>, msg: string)
      ensures var u := Strip(username);
        ok <==> u != "" && password != "" && u in users && VerifyPassword(password, users[u].passwordHash, kdf)
      ensures var u := Strip(username);
        ok ==> user == Some(UserInfo(users[u].id, u, users[u].email, users[u].phone, users[u].createdAt)) && msg == LOGGED_IN
      ensures !ok ==> user.None? && msg == (if Strip(username) == "" || password == "" then CREDENTIALS_EMPTY else CREDENTIALS_WRONG)
    {
      var u := Strip(username);
      if u == "" || password == "" {
        return false, None, CREDENTIALS_EMPTY;
      }
      if u !in users {
        return false, None, CREDENTIALS_WRONG;
      }
      var row := users[u];
      if !VerifyPassword(password, row.passwordHash, kdf) {
        return false, None, CREDENTIALS_WRONG;
      }
      return true, Some(UserInfo(row.id, u, row.email, row.phone, row.createdAt)), LOGGED_IN;
    }
  }

  /** A user who has just registered can log in with the same username and password. */
  method RegisterThenLogin(store: UserStore, username: string, password: string, email: string, phone: string,
                           salt: string, now: string)
    returns (ok: bool, user: Option<UserInfo>)
    requires store.Valid()
    requires IsSaltToken(salt)
    requires RegisterError(username, password, email, phone).None?
    requires Strip(username) !in store.users
    modifies store
    ensures ok
    ensures user == Some(UserInfo(old(store.nextId), Strip(username), Strip(email), Strip(phone), now))
  {
    var registered, _ := store.Register(username, password, email, phone, salt, now);
    VerifyHashed(password, password, salt, store.kdf);
    var msg;
    ok, user, msg := store.Login(username, password);
  }
}
