/** `deviceGrants` as the object it is. Each method is one section under its mutex; map
    iteration is a loop that takes keys in any order, and the key it happened to meet comes
    back as a ghost result. */
module DeviceService {
  import opened Common
  import opened DeviceModel
  import Q = DeviceQuota

  class DeviceGrants {
    var grants: map<string, Grant>
    var starts: Attempts
    var confirmations: Attempts

    ghost function Tab(): Table
      reads this
    {
      Table(grants, starts, confirmations)
    }

    constructor ()
      ensures Tab() == EMPTY
    {
      grants, starts, confirmations := map[], map[], map[];
    }

    method Prune(now: int)
      modifies this
      ensures Tab() == DeviceModel.Prune(old(Tab()), now)
    {
      var keys := grants.Keys;
      while keys != {}
        invariant keys <= grants.Keys && Tab() == old(Tab()).(grants := grants)
        invariant forall k :: k in grants ==> k in old(grants) && grants[k] == old(grants)[k]
        invariant forall k :: k in old(grants) && (k in keys || now < old(grants)[k].expires) ==> k in grants
        invariant forall k :: k in grants && k !in keys ==> now < grants[k].expires
        decreases keys
      {
        var k :| k in keys;
        keys := keys - {k};
        if now >= grants[k].expires { grants := grants - {k}; }
      }
      assert grants == PruneGrants(old(grants), now);
      starts := PruneRecords(starts, now);
      confirmations := PruneRecords(confirmations, now);
    }

    method StartDevice(name: string, ip: string, now: int, token: Option<string>, draws: seq<string>)
      returns (answer: Answer, ghost evicted: string)
      modifies this
      ensures (Tab(), answer) == Start(old(Tab()), name, ip, now, evicted, token, draws)
    {
      evicted := "";
      if !ValidName(name) { return Invalid, evicted; }
      Prune(now);
      // Capacity first, so that a refused start does not use up the caller's quota.
      if |grants| >= MAX_DEVICE_GRANTS { return Limited, evicted; }
      var admitted;
      starts, admitted, evicted := DeviceAdmit(starts, ip, now, MAX_ADMISSIONS);
      if !admitted { return Limited, evicted; }
      if token.None? { return Failed, evicted; }
      var code := PickCode(grants, if |draws| <= CODE_ATTEMPTS then draws else draws[..CODE_ATTEMPTS]);
      if code.None? { return Failed, evicted; }
      grants := grants[token.value := Grant(code.value, name, "", "", now + DEVICE_TTL, None)];
      return Started(code.value), evicted;
    }

    method PreviewDevice(code: string, user: string, now: int)
      returns (answer: Answer, ghost evicted: string, pick: string)
      modifies this
      ensures (Tab(), answer) == PreviewGrant(old(Tab()), code, user, now, evicted, pick)
      ensures Matches(grants, code) != {} && !answer.Limited? ==> pick in Matches(grants, code)
    {
      pick := "";
      Prune(now);
      var admitted;
      confirmations, admitted, evicted := DeviceAdmit(confirmations, user, now, MAX_ADMISSIONS);
      if !admitted { return Limited, evicted, pick; }
      var found;
      found, pick := FirstMatch(grants, code);
      if !found { return Invalid, evicted, pick; }
      return Preview(grants[pick].name, grants[pick].expires), evicted, pick;
    }

    method ConfirmDevice(code: string, user: string, session: string, authentic: bool, now: int)
      returns (answer: Answer, ghost evicted: string, pick: string)
      modifies this
      ensures (Tab(), answer) == Confirm(old(Tab()), code, user, session, authentic, now, evicted, pick)
      ensures answer.Invalid? && authentic ==> Matches(grants, code) == {}
    {
      evicted, pick := "", "";
      if !authentic { return Invalid, evicted, pick; }
      Prune(now);
      var admitted;
      confirmations, admitted, evicted := DeviceAdmit(confirmations, user, now, MAX_ADMISSIONS);
      if !admitted { return Limited, evicted, pick; }
      var found;
      found, pick := FirstMatch(grants, code);
      if !found { return Invalid, evicted, pick; }
      grants := grants[pick := grants[pick].(userID := user, sessionID := session)];
      return Confirmed, evicted, pick;
    }

    /** The section before the exchange: an approved grant leaves the table. */
    method PollDevice(key: string, now: int) returns (answer: Answer)
      modifies this
      ensures (Tab(), answer) == Poll(old(Tab()), key, now)
    {
      Prune(now);
      if key !in grants { return Invalid; }
      var g := grants[key];
      if g.nextPoll.Some? && now < g.nextPoll.value {
        grants := grants[key := g.(nextPoll := Some(now + 2 * DEVICE_INTERVAL))];
        return SlowDown;
      }
      g := g.(nextPoll := Some(now + DEVICE_INTERVAL));
      if g.userID == "" {
        grants := grants[key := g];
        return Pending;
      }
      grants := grants - {key};
      return Taken(g);
    }

    /** The section after a failed exchange. */
    method ReturnGrant(key: string, g: Grant, now: int)
      modifies this
      ensures Tab() == PutBack(old(Tab()), key, g, now)
      ensures grants == if now < g.expires then old(grants)[key := g] else old(grants)
    {
      if now < g.expires { grants := grants[key := g]; }
    }
  }

  /** In place, the attempts still inside the window. */
  method Compact(attempts: seq<int>, now: int) returns (valid: seq<int>)
    ensures valid == Recent(attempts, now)
  {
    valid := [];
    var i := 0;
    while i < |attempts|
      invariant i <= |attempts| && valid == Recent(attempts[..i], now)
    {
      Q.RecentAppend(attempts[..i], attempts[i], now);
      assert attempts[..i + 1] == attempts[..i] + [attempts[i]];
      if now - attempts[i] < DEVICE_TTL { valid := valid + [attempts[i]]; }
      i := i + 1;
    }
    assert attempts[..i] == attempts;
  }

  method PruneRecords(old_records: Attempts, now: int) returns (records: Attempts)
    ensures records == PruneAttempts(old_records, now)
  {
    records := old_records;
    var keys := records.Keys;
    while keys != {}
      invariant keys <= records.Keys <= old_records.Keys
      invariant forall k :: k in keys ==> records[k] == old_records[k]
      invariant forall k :: k in records && k !in keys ==> records[k] == Recent(old_records[k], now) != []
      invariant forall k :: k in old_records && k !in records ==> Recent(old_records[k], now) == []
      decreases keys
    {
      var k :| k in keys;
      keys := keys - {k};
      var valid := Compact(records[k], now);
      records := if |valid| == 0 then records - {k} else records[k := valid];
    }
  }

  method DeviceAdmit(records: Attempts, key: string, now: int, maximum: nat)
    returns (after: Attempts, admitted: bool, ghost evicted: string)
    ensures admitted <==> Admissible(records, key, maximum)
    ensures after == if admitted then Admit(records, key, now, evicted) else records
    ensures admitted && key !in records && |records| >= MAX_QUOTA_KEYS ==> evicted in records
  {
    after, evicted := records, "";
    if |Get(records, key)| >= maximum { return after, false, evicted; }
    if key !in records && |records| >= MAX_QUOTA_KEYS {
      assert records.Keys != {};
      var k :| k in records;
      after := after - {k};
      evicted := k;
    }
    after := after[key := Get(after, key) + [now]];
    admitted := true;
  }

  /** The first drawn code that no grant shows. */
  method PickCode(grants: map<string, Grant>, draws: seq<string>) returns (code: Option<string>)
    ensures code == FreeCode(grants, draws)
  {
    var attempt := 0;
    while attempt < |draws|
      invariant attempt <= |draws| && FreeCode(grants, draws[attempt..]) == FreeCode(grants, draws)
    {
      var collision := Collides(grants, draws[attempt]);
      if !collision { return Some(draws[attempt]); }
      assert draws[attempt..][1..] == draws[attempt + 1..];
      attempt := attempt + 1;
    }
    return None;
  }

  method Collides(grants: map<string, Grant>, code: string) returns (collision: bool)
    ensures collision <==> CodeTaken(grants, code)
  {
    collision := false;
    var keys := grants.Keys;
    while keys != {}
      invariant keys <= grants.Keys
      invariant collision <==> exists k :: k in grants && k !in keys && grants[k].codeHash == code
      decreases keys
    {
      var k :| k in keys;
      if grants[k].codeHash == code { collision := true; }
      keys := keys - {k};
    }
  }

  /** Whichever unconfirmed grant with this code iteration meets first. */
  method FirstMatch(grants: map<string, Grant>, code: string) returns (found: bool, pick: string)
    ensures found <==> Matches(grants, code) != {}
    ensures found <==> pick in Matches(grants, code)
  {
    var keys := grants.Keys;
    pick := "";
    while keys != {}
      invariant keys <= grants.Keys && Matches(grants, code) <= keys
      decreases keys
    {
      var k :| k in keys;
      if grants[k].codeHash == code && grants[k].userID == "" {
        assert k in Matches(grants, code);
        return true, k;
      }
      keys := keys - {k};
    }
    found := false;
  }
}
