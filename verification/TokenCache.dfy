/** The access-token cache: memory, a disk file that may refuse writes, and invalidation. */
module TokenCache {
  import opened SleeveTypes

  /** A token by its place in the order of issue. */
  datatype CachedToken = CachedToken(number: nat, expiresAt: real)

  /** The token in memory is good at the first look, or still at the second one under the lock. */
  predicate InMemory(memory: Option<CachedToken>, early: real, now: real) {
    memory.Some? && (early < memory.value.expiresAt || now < memory.value.expiresAt)
  }

  /** The file may be trusted, can be read, and holds a token that is still good. */
  predicate OnDisk(disk: Option<CachedToken>, invalidated: bool, readFails: bool, now: real) {
    !invalidated && !readFails && disk.Some? && now < disk.value.expiresAt
  }

  class TossAuth {
    var memory: Option<CachedToken>
    var disk: Option<CachedToken>
    var invalidated: bool

    ghost var issued: nat         // tokens issued so far
    ghost var stale: nat          // tokens issued before the last invalidation
    ghost var latestExpiry: real  // no token so far expires later

    /** A stale token can only be left on disk, and there it is not read or has outlived no newer token. */
    ghost predicate Valid()
      reads this
    {
      && stale <= issued
      && (memory.Some? ==> stale <= memory.value.number < issued && memory.value.expiresAt <= latestExpiry)
      && (disk.Some? ==> disk.value.number < issued && disk.value.expiresAt <= latestExpiry)
      && (invalidated ==> memory.None?)
      && (disk.Some? && disk.value.number < stale && !invalidated ==>
            memory.Some? && disk.value.expiresAt <= memory.value.expiresAt)
    }

    /** A process starts with nothing in memory and with the file an earlier one may have left. */
    constructor (file: Option<CachedToken>)
      requires file.Some? ==> file.value.number == 0
      ensures Valid() && memory.None? && disk == file && !invalidated
      ensures stale == 0 && issued == if file.Some? then 1 else 0
      ensures file.Some? ==> latestExpiry == file.value.expiresAt
    {
      memory, disk, invalidated, stale := None, file, false, 0;
      issued := if file.Some? then 1 else 0;
      latestExpiry := if file.Some? then file.value.expiresAt else 0.0;
    }

    /** Issues a token and tries to write it to disk. */
    method IssueToken(number: nat, expiresAt: real, writeFails: bool) returns (token: CachedToken)
      requires Valid() && number == issued && latestExpiry <= expiresAt
      modifies this
      ensures Valid() && issued == old(issued) + 1 && stale == old(stale)
      ensures token == CachedToken(old(issued), expiresAt) && memory == Some(token) && !invalidated
      ensures disk == if writeFails then old(disk) else Some(token)
    {
      token := CachedToken(number, expiresAt);
      memory := Some(token);
      invalidated := false;
      if !writeFails {
        disk := Some(token);
      }
      issued := issued + 1;
      latestExpiry := expiresAt;
    }

    /**
     * A token from memory, then disk, then the server. Whatever fails on disk, it was issued
     * after the last invalidation, and a cached one has not expired.
     */
    method Token(early: real, now: real, readFails: bool, number: nat, answer: Option<real>, writeFails: bool)
      returns (token: Option<CachedToken>)
      requires Valid() && number == issued
      requires answer.Some? ==> latestExpiry <= answer.value
      modifies this
      ensures Valid() && stale == old(stale)
      ensures token.Some? ==> stale <= token.value.number < issued
      ensures token.Some? && token.value.number < old(issued) ==>
                early < token.value.expiresAt || now < token.value.expiresAt
      ensures token.None? ==> answer.None? && memory == old(memory) && disk == old(disk)
      ensures InMemory(old(memory), early, now) ==>
                token == memory == old(memory) && disk == old(disk) && issued == old(issued)
      ensures !InMemory(old(memory), early, now) && OnDisk(old(disk), old(invalidated), readFails, now) ==>
                token == memory == disk == old(disk) && issued == old(issued)
      ensures !InMemory(old(memory), early, now) && !OnDisk(old(disk), old(invalidated), readFails, now) ==>
                if answer.None? then token.None?
                else token == memory == Some(CachedToken(old(issued), answer.value)) && issued == old(issued) + 1
    {
      if memory.Some? && early < memory.value.expiresAt {
        return memory;
      }
      if memory.Some? && now < memory.value.expiresAt {
        return memory;
      }
      if !invalidated && !readFails && disk.Some? && now < disk.value.expiresAt {
        memory := disk;
        return memory;
      }
      if answer.None? {
        return None;
      }
      var issuedNow := IssueToken(number, answer.value, writeFails);
      token := Some(issuedNow);
    }

    /** Throws the cached tokens away; the file may refuse to be deleted. */
    method Invalidate(unlinkFails: bool)
      requires Valid()
      modifies this
      ensures Valid() && stale == issued == old(issued) && memory.None? && invalidated
      ensures disk == if unlinkFails then old(disk) else None
    {
      memory := None;
      invalidated := true;
      if !unlinkFails {
        disk := None;
      }
      stale := issued;
    }
  }
}
