// The session settings of src/agents/modules/config.py: the prefix of the
// Redis keys, the lifetime of a stored session and the connection URL.
module Config {
  import opened Strings

  /** `REDIS_PREFIX` when the environment does not set it. */
  const DefaultPrefix := "agent_session"

  /** `SESSION_TTL_HOURS` when the environment does not set it. */
  const DefaultTtlHours := 24

  const SecondsPerHour := 3600

  /** `SESSION_TTL_SECONDS`: a whole number of hours, in seconds; a day by
      default. */
  function TtlSeconds(hours: int): (r: int)
    ensures r / SecondsPerHour == hours && r % SecondsPerHour == 0
    ensures hours == DefaultTtlHours ==> r == 86400
  {
    hours * SecondsPerHour
  }

  /** The `host:port/db` part of the URL. */
  function Address(host: string, port: int, db: int): string {
    host + ":" + IntToString(port) + "/" + IntToString(db)
  }

  /** `get_redis_url()`: the password, when there is one, comes between
      `redis://:` and an `@`; without one the URL has no credentials. */
  function RedisUrl(password: string, host: string, port: int, db: int): (r: string)
    ensures |password| > 0 ==> StartsWith(r, "redis://:" + password + "@")
    ensures |password| == 0 ==> StartsWith(r, "redis://" + host + ":")
    ensures EndsWith(r, Address(host, port, db))
    ensures '@' !in host ==> ('@' in r <==> |password| > 0)
  {
    var auth := if |password| > 0 then ":" + password + "@" else "";
    var a := Address(host, port, db);
    AddressHasNoAt(host, port, db);
    if |password| > 0 then
      AuthUrlShape(password, a);
      "redis://" + auth + a
    else
      PlainUrlShape(host, IntToString(port) + "/" + IntToString(db));
      "redis://" + auth + a
  }

  lemma AuthUrlShape(password: string, a: string)
    ensures var r := "redis://" + (":" + password + "@") + a;
      StartsWith(r, "redis://:" + password + "@") && EndsWith(r, a) && '@' in r
  {
    var s, c, at := "redis://", ":", "@";
    assert "redis://:" == s + c;
    var head := s + c + password + at;
    assert s + (c + password + at) + a == head + a;
    StartsWithHead(head, a);
    EndsWithTail(head, a);
    assert head[|head| - 1] == '@';
    assert (head + a)[|head| - 1] == '@';
  }

  lemma PlainUrlShape(host: string, tail: string)
    ensures var r := "redis://" + "" + (host + ":" + tail);
      StartsWith(r, "redis://" + host + ":") && EndsWith(r, host + ":" + tail)
  {
    var s, c := "redis://", ":";
    assert s + "" + (host + c + tail) == s + host + c + tail;
    StartsWithHead(s + host + c, tail);
    EndsWithTail(s, host + c + tail);
  }

  /** Numbers print with digits and a sign only. */
  lemma AddressHasNoAt(host: string, port: int, db: int)
    ensures '@' !in host ==> '@' !in Address(host, port, db)
  {
    IntToStringDigits(port);
    IntToStringDigits(db);
  }

  /** With no `@` in the password or the host, splitting the URL at `@`
      separates the credentials from the address. */
  lemma UrlSplitsAtCredentials(password: string, host: string, port: int, db: int)
    requires '@' !in password && '@' !in host
    ensures |password| > 0 ==> Split(RedisUrl(password, host, port, db), '@') == ["redis://:" + password, Address(host, port, db)]
    ensures |password| == 0 ==> Split(RedisUrl(password, host, port, db), '@') == [RedisUrl(password, host, port, db)]
  {
    AddressHasNoAt(host, port, db);
    var a := Address(host, port, db);
    if |password| > 0 {
      assert RedisUrl(password, host, port, db) == ("redis://:" + password) + ['@'] + a;
      SplitCons("redis://:" + password, '@', a);
    }
  }
}
