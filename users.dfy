/** UserServiceImpl: verification codes kept in Redis, login by phone and
    code, find-or-create of the user row, and the login token hash. Phone
    validity (RegexUtils), the random digits (RandomUtil) and the token
    (UUID) are parameters. */
module Users {
  import opened Util
  import opened RedisStore
  import opened RedisConstants

  /** The tb_user columns the service reads or sets. */
  datatype User = User(id: int, phone: string, nickName: Option<string>, icon: Option<string>)

  /** length of a verification code and of a new user's nickname suffix */
  const CODE_LENGTH: nat := 6
  const NICK_DIGITS: nat := 10

  /** the failure messages: "invalid phone number" and "wrong verification code" */
  const INVALID_PHONE: string := "手机号码不合法"
  const WRONG_CODE: string := "验证码错误"

  /** RandomUtil.randomNumbers(length): `length` characters drawn from
      "0123456789"; `draw(i)` is the i-th random choice. */
  function RandomNumbers(length: nat, draw: nat -> nat): (s: string)
    ensures |s| == length
    ensures forall i :: 0 <= i < |s| ==> '0' <= s[i] <= '9'
  {
    var s := seq(length, i requires 0 <= i => DigitChar(draw(i) % 10));
    assert forall i :: 0 <= i < |s| ==> s[i] == DigitChar(draw(i) % 10);
    s
  }

  /** query().eq("phone", phone).one(): the user with that phone, if any. */
  function FindByPhone(users: seq<User>, phone: string): (r: Option<User>)
    ensures r.None? <==> forall i :: 0 <= i < |users| ==> users[i].phone != phone
    ensures r.Some? ==> r.value.phone == phone && exists i :: 0 <= i < |users| && users[i] == r.value
  {
    if users == [] then None
    else if users[0].phone == phone then Some(users[0])
    else
      var r := FindByPhone(users[1..], phone);
      assert forall i :: 1 <= i < |users| ==> users[i] == users[1..][i - 1];
      r
  }

  /** With phones unique, the user found is the one row holding that phone. */
  lemma {:induction false} FindByPhoneUnique(users: seq<User>, k: int)
    requires forall i, j :: 0 <= i < j < |users| ==> users[i].phone != users[j].phone
    requires 0 <= k < |users|
    ensures FindByPhone(users, users[k].phone) == Some(users[k])
    decreases |users|
  {
    if k > 0 {
      assert users[0].phone != users[k].phone;
      assert users[k] == users[1..][k - 1];
      FindByPhoneUnique(users[1..], k - 1);
    }
  }

  /** The user createUserWithPhone builds: the phone, the nickname "user_"
      followed by ten random digits, the id the table assigns, no icon. */
  function NewUser(id: int, phone: string, nickDraw: nat -> nat): (u: User)
    ensures u.id == id && u.phone == phone && u.icon.None?
    ensures u.nickName.Some?
    ensures |u.nickName.value| == |USER_NICK_NAME_PREFIX| + NICK_DIGITS
    ensures u.nickName.value[..|USER_NICK_NAME_PREFIX|] == USER_NICK_NAME_PREFIX
    ensures forall i :: |USER_NICK_NAME_PREFIX| <= i < |u.nickName.value| ==> '0' <= u.nickName.value[i] <= '9'
  {
    var digits := RandomNumbers(NICK_DIGITS, nickDraw);
    var nick := USER_NICK_NAME_PREFIX + digits;
    assert forall i :: |USER_NICK_NAME_PREFIX| <= i < |nick| ==> nick[i] == digits[i - |USER_NICK_NAME_PREFIX|];
    User(id, phone, Some(nick), None)
  }

  /** beanToMap of the UserDTO with null fields skipped and every value
      turned into its string: "id", and "nickName" / "icon" when set. */
  function DtoMap(u: User): (m: map<string, string>)
    ensures "id" in m && m["id"] == DecimalString(u.id)
    ensures "nickName" in m <==> u.nickName.Some?
    ensures "icon" in m <==> u.icon.Some?
    ensures u.nickName.Some? ==> m["nickName"] == u.nickName.value
    ensures u.icon.Some? ==> m["icon"] == u.icon.value
    ensures m.Keys <= {"id", "nickName", "icon"}
  {
    var m := map["id" := DecimalString(u.id)];
    var m := if u.nickName.Some? then m["nickName" := u.nickName.value] else m;
    if u.icon.Some? then m["icon" := u.icon.value] else m
  }

  /** The UserDTO that the token interceptor rebuilds from the stored hash
      with fillBeanWithMap: each field read back from its string, null when
      the hash has no entry for it. */
  datatype UserDto = UserDto(id: Option<int>, nickName: Option<string>, icon: Option<string>)

  function FillUserDto(m: map<string, string>): UserDto
  {
    UserDto(if "id" in m then Some(DecimalValue(m["id"])) else None,
            if "nickName" in m then Some(m["nickName"]) else None,
            if "icon" in m then Some(m["icon"]) else None)
  }

  /** The hash login stores gives back the logged-in user's id, nickname and
      icon, with the fields that were null still null. */
  lemma DtoMapRoundTrip(u: User)
    ensures FillUserDto(DtoMap(u)) == UserDto(Some(u.id), u.nickName, u.icon)
  {
    DecimalStringValue(u.id);
  }

  class UserService {
    const redis: Redis
    const isPhoneInvalid: string -> bool
    /** tb_user */
    var users: seq<User>
    /** the id the table assigns to the next inserted row */
    var nextUserId: int

    /** Phones are unique and ids are below the next one assigned. */
    ghost predicate Valid()
      reads this
    {
      && (forall i, j :: 0 <= i < j < |users| ==> users[i].phone != users[j].phone)
      && (forall i :: 0 <= i < |users| ==> users[i].id < nextUserId)
    }

    constructor (redis: Redis, isPhoneInvalid: string -> bool, users: seq<User>, nextUserId: int)
      requires forall i, j :: 0 <= i < j < |users| ==> users[i].phone != users[j].phone
      requires forall i :: 0 <= i < |users| ==> users[i].id < nextUserId
      ensures Valid()
      ensures this.redis == redis && this.isPhoneInvalid == isPhoneInvalid
      ensures this.users == users && this.nextUserId == nextUserId
    {
      this.redis, this.isPhoneInvalid := redis, isPhoneInvalid;
      this.users, this.nextUserId := users, nextUserId;
    }

    /** sendCode: an invalid phone fails with nothing stored; otherwise a
        six-digit code is stored under LOGIN_CODE_KEY + phone for
        LOGIN_CODE_TTL minutes. */
    method SendCode(phone: string, draw: nat -> nat) returns (res: Result<()>)
      modifies redis
      ensures isPhoneInvalid(phone) ==> res == Fail(INVALID_PHONE) && unchanged(redis)
      ensures !isPhoneInvalid(phone) ==>
        && res == Ok(())
        && redis.strings == old(redis.strings)[LOGIN_CODE_KEY + phone := RandomNumbers(CODE_LENGTH, draw)]
        && redis.ttl == old(redis.ttl)[LOGIN_CODE_KEY + phone := Minutes(LOGIN_CODE_TTL)]
        && redis.hashes == old(redis.hashes) && redis.counters == old(redis.counters)
    {
      if isPhoneInvalid(phone) {
        return Fail(INVALID_PHONE);
      }
      var code := RandomNumbers(CODE_LENGTH, draw);
      redis.SetEx(LOGIN_CODE_KEY + phone, code, Minutes(LOGIN_CODE_TTL));
      res := Ok(());
    }

    /** login with the form's phone and code (null when absent). `token` is
        the generated UUID and `nickDraw` the random source of a new
        user's nickname. */
    method Login(phone: string, code: Option<string>, token: string, nickDraw: nat -> nat)
      returns (res: Result<string>)
      requires Valid()
      modifies this, redis
      ensures Valid()
      ensures isPhoneInvalid(phone) ==> res == Fail(INVALID_PHONE) && unchanged(this) && unchanged(redis)
      ensures !isPhoneInvalid(phone) && (code.None? || old(Lookup(redis.strings, LOGIN_CODE_KEY + phone)) != code) ==>
        res == Fail(WRONG_CODE) && unchanged(this) && unchanged(redis)
      ensures !isPhoneInvalid(phone) && code.Some? && old(Lookup(redis.strings, LOGIN_CODE_KEY + phone)) == code ==>
        && res == Ok(token)
        && (old(FindByPhone(users, phone)).Some? ==> users == old(users) && nextUserId == old(nextUserId))
        && (old(FindByPhone(users, phone)).None? ==>
              users == old(users) + [NewUser(old(nextUserId), phone, nickDraw)] && nextUserId == old(nextUserId) + 1)
        && FindByPhone(users, phone).Some?
        && var key := LOGIN_USER_KEY + token;
           && redis.hashes == old(redis.hashes)[key := (if key in old(redis.hashes) then old(redis.hashes)[key] else map[])
                                                      + DtoMap(FindByPhone(users, phone).value)]
           && redis.ttl == old(redis.ttl)[key := LOGIN_USER_TTL]
           && redis.strings == old(redis.strings) && redis.counters == old(redis.counters)
    {
      if isPhoneInvalid(phone) {
        return Fail(INVALID_PHONE);
      }
      var cacheCode := redis.Get(LOGIN_CODE_KEY + phone);
      if cacheCode.None? || Some(cacheCode.value) != code {
        return Fail(WRONG_CODE);
      }
      var user := FindByPhone(users, phone);
      var u: User;
      if user.None? {
        u := CreateUserWithPhone(phone, nickDraw);
        assert users[|users| - 1] == u;
        FindByPhoneUnique(users, |users| - 1);
      } else {
        u := user.value;
      }
      var key := LOGIN_USER_KEY + token;
      redis.HashPutAll(key, DtoMap(u));
      redis.Expire(key, LOGIN_USER_TTL);
      res := Ok(token);
    }

    /** createUserWithPhone: inserts the new user, whose phone is not yet in the table. */
    method CreateUserWithPhone(phone: string, nickDraw: nat -> nat) returns (u: User)
      requires Valid()
      requires FindByPhone(users, phone).None?
      modifies this
      ensures Valid()
      ensures u == NewUser(old(nextUserId), phone, nickDraw)
      ensures users == old(users) + [u] && nextUserId == old(nextUserId) + 1
    {
      u := NewUser(nextUserId, phone, nickDraw);
      users := users + [u];
      nextUserId := nextUserId + 1;
    }
  }

  /** The code sent to a valid phone logs that phone in: the user exists
      afterwards and each token's hash holds that user's id. The first login
      adds the user's row if there was none; the second finds the same user
      and adds no row. */
  method SendCodeThenLogin(s: UserService, phone: string, draw: nat -> nat, t1: string, t2: string, nickDraw: nat -> nat)
    returns (r1: Result<string>, r2: Result<string>)
    requires s.Valid() && !s.isPhoneInvalid(phone)
    modifies s, s.redis
    ensures r1 == Ok(t1) && r2 == Ok(t2)
    ensures FindByPhone(s.users, phone).Some?
    ensures old(FindByPhone(s.users, phone)).Some? ==> s.users == old(s.users)
    ensures old(FindByPhone(s.users, phone)).None? ==>
      s.users == old(s.users) + [NewUser(old(s.nextUserId), phone, nickDraw)]
    ensures LOGIN_USER_KEY + t2 in s.redis.hashes && "id" in s.redis.hashes[LOGIN_USER_KEY + t2]
    ensures s.redis.hashes[LOGIN_USER_KEY + t2]["id"] == DecimalString(FindByPhone(s.users, phone).value.id)
  {
    var sent := s.SendCode(phone, draw);
    var code := RandomNumbers(CODE_LENGTH, draw);
    r1 := s.Login(phone, Some(code), t1, nickDraw);
    r2 := s.Login(phone, Some(code), t2, nickDraw);
  }
}
