/**
 The limits of the Identity service: which counter every action uses, with which
 bounds, and that no sequence of calls ever admits more than a counter's bounds.
 */
module LimitService {
  import opened Options
  import opened Clock
  import opened Limiter
  import Framing

  datatype Limit =
    | Signup
    | CodeRequest
    | ProviderLoginStart
    | ProviderCallback
    | ProviderSessionFailure
    | WrongCode
    | CodeIssue
    | AccountWrongCode
    | RecoveryEmail
    | RecoveryGuessEmail
    | LoginSource
    | LoginEmail

  function ScopeOf(limit: Limit): string {
    match limit
    case CodeIssue => "account"
    case AccountWrongCode => "account"
    case RecoveryEmail => "email"
    case RecoveryGuessEmail => "email"
    case LoginEmail => "email"
    case _ => "source"
  }

  function ActionOf(limit: Limit): string {
    match limit
    case Signup => "signup"
    case CodeRequest => "code-request"
    case ProviderLoginStart => "provider-login-start"
    case ProviderCallback => "provider-callback"
    case ProviderSessionFailure => "provider-session-failure"
    case WrongCode => "code-guess"
    case CodeIssue => "code-request"
    case AccountWrongCode => "code-guess"
    case RecoveryEmail => "code-request"
    case RecoveryGuessEmail => "code-guess"
    case LoginSource => "password-login"
    case LoginEmail => "password-login"
  }

  function PolicyOf(limit: Limit): Policy {
    match limit
    case Signup => Policy(10, 0, HOUR, 0)
    case CodeRequest => Policy(60, 0, HOUR, 0)
    case ProviderLoginStart => Policy(60, 0, HOUR, 0)
    case ProviderCallback => Policy(120, 0, HOUR, 0)
    case ProviderSessionFailure => Policy(100, 0, HOUR, 0)
    case WrongCode => Policy(100, 0, HOUR, 0)
    case CodeIssue => Policy(5, 0, HOUR, MINUTE)
    case AccountWrongCode => Policy(10, 20, HOUR, 0)
    case RecoveryEmail => Policy(60, 0, HOUR, 0)
    case RecoveryGuessEmail => Policy(10, 20, HOUR, 0)
    case LoginSource => Policy(60, 0, HOUR, 0)
    case LoginEmail => Policy(10, 0, 15 * MINUTE, 0)
  }

  function KeyOf(limit: Limit, key: string): Key { Key(ScopeOf(limit), key, ActionOf(limit)) }

  /** No counter row serves two limits. */
  lemma CountersAreSeparate(a: Limit, b: Limit, k: string, l: string)
    ensures KeyOf(a, k) == KeyOf(b, l) <==> a == b && k == l
  {
  }

  /** Every limit keeps its window within the day of rows that the usage query reads. */
  lemma WindowsFit(limit: Limit)
    ensures 0 < PolicyOf(limit).window <= DAY && PolicyOf(limit).maximum > 0
  {
  }

  datatype Reply = Allowed | RateLimited | InvalidLimitKey | InvalidEmail

  // What the normalized email and the verifier key give: no email, or the counter key of its digest.
  type Digest = string -> string

  // The keyed digest of a normalized address; no key without an address.
  function RecoveryKey(normalized: Option<string>, mac: Digest): string {
    if normalized.None? then "" else mac(Framing.LimitMessage(normalized.value))
  }

  // An event that is allowed is counted.
  predicate Appends(before: seq<Time>, after: seq<Time>, now: Time, allowed: bool) {
    after == if allowed then before + [now] else before
  }

  // The log of every counter is within the bounds of its limit.
  ghost predicate AllWithin(logs: map<Key, seq<Time>>) {
    forall limit, key ::
      Sorted(LogOf(logs, KeyOf(limit, key))) && Bounded(LogOf(logs, KeyOf(limit, key)), PolicyOf(limit))
  }

  lemma LogWithin(logs: map<Key, seq<Time>>, limit: Limit, key: string)
    requires AllWithin(logs)
    ensures Sorted(LogOf(logs, KeyOf(limit, key))) && Bounded(LogOf(logs, KeyOf(limit, key)), PolicyOf(limit))
  {
    hide Sorted, Bounded, PolicyOf, KeyOf;
  }

  /** Counting an event that one limit admits keeps the bounds of every limit. */
  lemma AppendKeeps(logs: map<Key, seq<Time>>, limit: Limit, key: string, now: Time)
    requires AllWithin(logs) && Sorted(LogOf(logs, KeyOf(limit, key)) + [now])
    requires Bounded(LogOf(logs, KeyOf(limit, key)) + [now], PolicyOf(limit))
    ensures AllWithin(logs[KeyOf(limit, key) := LogOf(logs, KeyOf(limit, key)) + [now]])
  {
    hide Sorted, Bounded, PolicyOf, KeyOf;
    forall l, k ensures KeyOf(limit, key) == KeyOf(l, k) <==> limit == l && key == k {
      CountersAreSeparate(limit, l, key, k);
    }
  }

  class Service {
    const repository: Repository

    constructor (r: Repository)
      requires r.Valid() && r.logs == map[]
      ensures repository == r && Valid()
    {
      repository := r;
      new;
      forall limit ensures Bounded([], PolicyOf(limit)) {
        EmptyIsBounded(PolicyOf(limit));
      }
    }

    ghost function Log(limit: Limit, key: string): seq<Time>
      reads repository
    {
      LogOf(repository.logs, KeyOf(limit, key))
    }

    /** The counters represent logs that are within the bounds of their limits. */
    ghost predicate Valid()
      reads repository
    {
      repository.Valid() && AllWithin(repository.logs)
    }

    /** One event of a limit: admitted, and then counted, exactly when its log stays within the bounds. */
    method Record(limit: Limit, key: string, now: Time) returns (reply: Reply)
      requires Valid() && repository.InOrder(KeyOf(limit, key), now)
      modifies repository
      ensures Valid()
      ensures reply == InvalidLimitKey <==> key == ""
      ensures reply != InvalidEmail
      ensures reply == Allowed <==> key != "" && Bounded(old(Log(limit, key)) + [now], PolicyOf(limit))
      ensures repository.logs ==
        if reply == Allowed
          then old(repository.logs)[KeyOf(limit, key) := old(Log(limit, key)) + [now]] else old(repository.logs)
    {
      if key == "" {
        return InvalidLimitKey;
      }
      hide AllWithin, Sorted, Bounded, PolicyOf, KeyOf, Represents;
      LogWithin(repository.logs, limit, key);
      WindowsFit(limit);
      SortedAppends(Log(limit, key), now);
      var allowed := repository.Record(KeyOf(limit, key), now, PolicyOf(limit));
      if allowed {
        AppendKeeps(old(repository.logs), limit, key, now);
      }
      reply := if allowed then Allowed else RateLimited;
    }

    // ----- The limits by name -----

    /** At most 10 sign-ups of a source in an hour. */
    method Signup(source: string, now: Time) returns (reply: Reply)
      requires Valid() && repository.InOrder(KeyOf(Limit.Signup, source), now)
      modifies repository
      ensures Valid()
      ensures reply == Allowed <==> source != "" && WindowBound(old(Log(Limit.Signup, source)) + [now], 60 * MINUTE, 10)
      ensures Appends(old(Log(Limit.Signup, source)), Log(Limit.Signup, source), now, reply == Allowed)
    {
      reply := Record(Limit.Signup, source, now);
    }

    /** At most 60 code requests of a source in an hour. */
    method CodeRequest(source: string, now: Time) returns (reply: Reply)
      requires Valid() && repository.InOrder(KeyOf(Limit.CodeRequest, source), now)
      modifies repository
      ensures Valid()
      ensures reply == Allowed <==>
        source != "" && WindowBound(old(Log(Limit.CodeRequest, source)) + [now], 60 * MINUTE, 60)
      ensures Appends(old(Log(Limit.CodeRequest, source)), Log(Limit.CodeRequest, source), now, reply == Allowed)
    {
      reply := Record(Limit.CodeRequest, source, now);
    }

    /** At most 60 provider logins that a source starts in an hour. */
    method ProviderLoginStart(source: string, now: Time) returns (reply: Reply)
      requires Valid() && repository.InOrder(KeyOf(Limit.ProviderLoginStart, source), now)
      modifies repository
      ensures Valid()
      ensures reply == Allowed <==>
        source != "" && WindowBound(old(Log(Limit.ProviderLoginStart, source)) + [now], 60 * MINUTE, 60)
      ensures Appends(old(Log(Limit.ProviderLoginStart, source)), Log(Limit.ProviderLoginStart, source), now, reply ==
        Allowed)
    {
      reply := Record(Limit.ProviderLoginStart, source, now);
    }

    /** At most 120 callbacks of a source in an hour. */
    method ProviderCallback(source: string, now: Time) returns (reply: Reply)
      requires Valid() && repository.InOrder(KeyOf(Limit.ProviderCallback, source), now)
      modifies repository
      ensures Valid()
      ensures reply == Allowed <==>
        source != "" && WindowBound(old(Log(Limit.ProviderCallback, source)) + [now], 60 * MINUTE, 120)
      ensures Appends(old(Log(Limit.ProviderCallback, source)), Log(Limit.ProviderCallback, source), now, reply ==
        Allowed)
    {
      reply := Record(Limit.ProviderCallback, source, now);
    }

    /** At most 100 rejected handoffs of a source in an hour. */
    method ProviderSessionFailure(source: string, now: Time) returns (reply: Reply)
      requires Valid() && repository.InOrder(KeyOf(Limit.ProviderSessionFailure, source), now)
      modifies repository
      ensures Valid()
      ensures reply == Allowed <==>
        source != "" && WindowBound(old(Log(Limit.ProviderSessionFailure, source)) + [now], 60 * MINUTE, 100)
      ensures Appends(old(Log(Limit.ProviderSessionFailure, source)), Log(Limit.ProviderSessionFailure, source), now,
        reply == Allowed)
    {
      reply := Record(Limit.ProviderSessionFailure, source, now);
    }

    /** At most 100 wrong codes of a source in an hour. */
    method WrongCode(source: string, now: Time) returns (reply: Reply)
      requires Valid() && repository.InOrder(KeyOf(Limit.WrongCode, source), now)
      modifies repository
      ensures Valid()
      ensures reply == Allowed <==>
        source != "" && WindowBound(old(Log(Limit.WrongCode, source)) + [now], 60 * MINUTE, 100)
      ensures Appends(old(Log(Limit.WrongCode, source)), Log(Limit.WrongCode, source), now, reply == Allowed)
    {
      reply := Record(Limit.WrongCode, source, now);
    }

    /** At most 5 codes of an account in an hour, a minute apart. */
    method CodeIssue(account: string, now: Time) returns (reply: Reply)
      requires Valid() && repository.InOrder(KeyOf(Limit.CodeIssue, account), now)
      modifies repository
      ensures Valid()
      ensures reply == Allowed <==>
        && account != "" && WindowBound(old(Log(Limit.CodeIssue, account)) + [now], 60 * MINUTE, 5)
        && Spaced(old(Log(Limit.CodeIssue, account)) + [now], 60 * SECOND)
      ensures Appends(old(Log(Limit.CodeIssue, account)), Log(Limit.CodeIssue, account), now, reply == Allowed)
    {
      reply := Record(Limit.CodeIssue, account, now);
    }

    /** At most 10 wrong codes of an account in an hour and 20 in a day. */
    method AccountWrongCode(account: string, now: Time) returns (reply: Reply)
      requires Valid() && repository.InOrder(KeyOf(Limit.AccountWrongCode, account), now)
      modifies repository
      ensures Valid()
      ensures reply == Allowed <==>
        && account != "" && WindowBound(old(Log(Limit.AccountWrongCode, account)) + [now], 60 * MINUTE, 10)
        && WindowBound(old(Log(Limit.AccountWrongCode, account)) + [now], 24 * HOUR, 20)
      ensures Appends(old(Log(Limit.AccountWrongCode, account)), Log(Limit.AccountWrongCode, account), now, reply ==
        Allowed)
    {
      reply := Record(Limit.AccountWrongCode, account, now);
    }

    /** Recovery emails are counted under the keyed digest of the normalized address. */
    method RecordRecovery(
      limit: Limit, normalized: Option<string>, keyLength: nat, mac: Digest, now: Time) returns (reply: Reply)
      requires limit.RecoveryEmail? || limit.RecoveryGuessEmail?
      requires Valid() && repository.InOrder(KeyOf(limit, RecoveryKey(normalized, mac)), now)
      modifies repository
      ensures Valid()
      ensures reply == InvalidLimitKey <==> keyLength != 32 || (normalized.Some? && RecoveryKey(normalized, mac) == "")
      ensures reply == InvalidEmail <==> keyLength == 32 && normalized.None?
      ensures reply != InvalidLimitKey && reply != InvalidEmail ==>
        (reply == Allowed <==>
          if limit.RecoveryEmail?
            then WindowBound(old(Log(limit, RecoveryKey(normalized, mac))) + [now], 60 * MINUTE, 60)
          else
            && WindowBound(old(Log(limit, RecoveryKey(normalized, mac))) + [now], 60 * MINUTE, 10)
            && WindowBound(old(Log(limit, RecoveryKey(normalized, mac))) + [now], 24 * HOUR, 20))
      ensures reply == Allowed ==>
        Log(limit, RecoveryKey(normalized, mac)) == old(Log(limit, RecoveryKey(normalized, mac))) + [now]
      ensures reply != Allowed ==> repository.logs == old(repository.logs)
    {
      if keyLength != 32 {
        return InvalidLimitKey;
      }
      if normalized.None? {
        return InvalidEmail;
      }
      reply := Record(limit, RecoveryKey(normalized, mac), now);
    }

    /**
     A password login counts its source and its email, or neither: it is admitted exactly when both logs stay within
     their bounds.
     */
    method PasswordLogin(source: string, normalized: Option<string>, digest: Digest, now: Time) returns (reply: Reply)
      requires Valid() && repository.InOrder(KeyOf(LoginSource, source), now)
      requires normalized.Some? ==> repository.InOrder(KeyOf(LoginEmail, digest(normalized.value)), now)
      modifies repository
      ensures Valid()
      ensures reply == InvalidLimitKey <==> source == ""
      ensures reply == InvalidEmail <==> source != "" && normalized.None?
      ensures reply != InvalidLimitKey && reply != InvalidEmail ==>
        (reply == Allowed <==>
          && WindowBound(old(Log(LoginSource, source)) + [now], 60 * MINUTE, 60)
          && WindowBound(old(Log(LoginEmail, digest(normalized.value))) + [now], 15 * MINUTE, 10))
      ensures repository.logs ==
        if reply != Allowed then old(repository.logs)
        else old(repository.logs)[KeyOf(LoginSource, source) := old(Log(LoginSource, source)) + [now]]
             [KeyOf(LoginEmail, digest(normalized.value)) := old(Log(LoginEmail, digest(normalized.value))) + [now]]
    {
      if source == "" {
        return InvalidLimitKey;
      }
      if normalized.None? {
        return InvalidEmail;
      }
      var email := digest(normalized.value);
      ghost var logs := repository.logs;
      LoginCounters(source, email);
      hide AllWithin, Sorted, Bounded, Refused, Represents, KeyOf, PolicyOf, SourceKey, EmailKey;
      LogWithin(logs, LoginSource, source);
      LogWithin(logs, LoginEmail, email);
      SortedAppends(Log(LoginSource, source), now);
      SortedAppends(Log(LoginEmail, email), now);
      WindowsFit(LoginSource);
      WindowsFit(LoginEmail);
      AdmittedIffBounded(RowsOf(repository.counters, KeyOf(LoginSource, source)), Log(LoginSource, source), now,
        PolicyOf(LoginSource));
      AdmittedIffBounded(RowsOf(repository.counters, KeyOf(LoginEmail, email)), Log(LoginEmail, email), now,
        PolicyOf(LoginEmail));
      var allowed := repository.RecordLogin(source, email, 60, 10, HOUR, 15 * MINUTE, now);
      if allowed {
        BothKeep(logs, source, email, now);
      }
      reply := if allowed then Allowed else RateLimited;
    }
  }

  // The keys and the policies that RecordLogin uses.
  lemma LoginCounters(source: string, email: string)
    ensures KeyOf(LoginSource, source) == SourceKey(source) && KeyOf(LoginEmail, email) == EmailKey(email)
    ensures KeyOf(LoginSource, source) != KeyOf(LoginEmail, email)
    ensures PolicyOf(LoginSource) == Policy(60, 0, HOUR, 0) && PolicyOf(LoginEmail) == Policy(10, 0, 15 * MINUTE, 0)
  {
  }

  lemma BothKeep(logs: map<Key, seq<Time>>, source: string, email: string, now: Time)
    requires AllWithin(logs)
    requires Sorted(LogOf(logs, KeyOf(LoginSource, source)) + [now])
    requires Bounded(LogOf(logs, KeyOf(LoginSource, source)) + [now], PolicyOf(LoginSource))
    requires Sorted(LogOf(logs, KeyOf(LoginEmail, email)) + [now])
    requires Bounded(LogOf(logs, KeyOf(LoginEmail, email)) + [now], PolicyOf(LoginEmail))
    ensures AllWithin(logs[KeyOf(LoginSource, source) := LogOf(logs, KeyOf(LoginSource, source)) + [now]]
                          [KeyOf(LoginEmail, email) := LogOf(logs, KeyOf(LoginEmail, email)) + [now]])
  {
    LoginCounters(source, email);
    hide AllWithin, Sorted, Bounded, KeyOf, PolicyOf;
    AppendKeeps(logs, LoginSource, source, now);
    AppendKeeps(logs[KeyOf(LoginSource, source) := LogOf(logs, KeyOf(LoginSource, source)) + [now]], LoginEmail,
      email, now);
  }

  lemma SortedAppends(log: seq<Time>, now: Time)
    requires Sorted(log) && (log == [] || log[|log| - 1] <= now)
    ensures Sorted(log + [now])
  {
  }
}
