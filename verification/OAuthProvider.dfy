/** The mutable objects of internal/oauth: Storage with its three files, Provider with its caches. */
module OAuthProvider {
  import opened Prelude
  import opened OAuthModel

  class Storage {
    var tokens: File<Tokens>
    var client: File<ClientInfo>
    var meta: File<MetaFile>

    ghost function Contents(): Disk
      reads this
    {
      Disk(tokens, client, meta)
    }

    constructor (d: Disk)
      ensures Contents() == d
    {
      tokens, client, meta := d.tokens, d.client, d.meta;
    }

    method SaveTokens(t: Tokens, o: Outcome)
      modifies this
      ensures Contents() == old(Contents()).(tokens := Save(old(tokens), t, o))
    {
      tokens := Save(tokens, t, o);
    }

    method SaveClient(c: ClientInfo, o: Outcome)
      modifies this
      ensures Contents() == old(Contents()).(client := Save(old(client), c, o))
    {
      client := Save(client, c, o);
    }

    method SaveMetadata(m: Metadata, resource: string, o: Outcome)
      modifies this
      ensures Contents() == old(Contents()).(meta := Save(old(meta), MetaFile(Some(m), resource), o))
    {
      meta := Save(meta, MetaFile(Some(m), resource), o);
    }

    /** Removing a missing file is no error; a failed removal leaves the file. */
    method ClearTokens(removed: bool)
      modifies this
      ensures Contents() == if removed then old(Contents()).(tokens := Absent) else old(Contents())
    {
      if removed {
        tokens := Absent;
      }
    }
  }

  class Provider {
    const storage: Storage?
    var cachedTokens: Option<Tokens>
    var cachedClient: Option<ClientInfo>
    var cachedMeta: Option<Metadata>
    var cachedResource: string
    var loaded: bool

    ghost function Current(): State
      reads this, storage
    {
      State(storage != null, if storage != null then storage.Contents() else EMPTY_DISK,
        Memory(cachedTokens, cachedClient, cachedMeta, cachedResource, loaded))
    }

    constructor (storage: Storage?, staticClient: Option<ClientInfo>)
      ensures this.storage == storage && Current().mem == Fresh(staticClient)
    {
      this.storage := storage;
      cachedTokens, cachedClient, cachedMeta, cachedResource, loaded := None, staticClient, None, "", false;
    }

    method EnsureLoadedLocked()
      modifies this
      ensures Current() == EnsureLoaded(old(Current()))
    {
      if loaded {
        return;
      }
      loaded := true;
      if storage == null {
        return;
      }
      if cachedTokens.None? && storage.tokens.Holds? {
        cachedTokens := Some(storage.tokens.value);
      }
      if cachedClient.None? && storage.client.Holds? {
        cachedClient := Some(storage.client.value);
      }
      if cachedMeta.None? && storage.meta.Holds? {
        cachedMeta, cachedResource := storage.meta.value.meta, storage.meta.value.resource;
      }
    }

    method ClearTokensLocked(w: World)
      modifies this, storage
      ensures Current() == Clear(old(Current()), w)
    {
      cachedTokens := None;
      if storage != null {
        storage.ClearTokens(w.luck.cleared);
      }
    }

    method StoreTokens(t: Tokens, w: World)
      modifies this, storage
      ensures var before := old(Current());
        Current() == OAuthModel.SaveTokens(before.(mem := before.mem.(tokens := Some(t))), t, w.luck.saveTokens)
    {
      cachedTokens := Some(t);
      if storage != null {
        storage.SaveTokens(t, w.luck.saveTokens);
      }
    }

    method RefreshTokensLocked(w: World) returns (ok: bool, seen: seq<Happening>)
      modifies this, storage
      ensures (Current(), ok, seen) == Refresh(old(Current()), w)
    {
      ok, seen := false, [];
      if cachedTokens.None? || cachedTokens.value.refresh == "" {
        return;
      }
      if cachedMeta.None? && storage != null && storage.meta.Holds? {
        cachedMeta := storage.meta.value.meta;
        if cachedResource == "" {
          cachedResource := storage.meta.value.resource;
        }
      }
      if cachedMeta.None? || cachedMeta.value.token == "" {
        return;
      }
      if cachedClient.None? || cachedClient.value.id == "" {
        if storage != null && storage.client.Holds? {
          cachedClient := Some(storage.client.value);
        }
      }
      if cachedClient.None? || cachedClient.value.id == "" {
        return;
      }
      var presented := cachedTokens.value.refresh;
      seen := [Presented(presented, w.refreshReply, w.refreshedAt)];
      var minted := Mint(w.refreshReply, w.refreshedAt);
      if minted.None? {
        return;
      }
      var tok := minted.value;
      if tok.refresh == "" {
        tok := tok.(refresh := presented);
      }
      StoreTokens(tok, w);
      ok := true;
    }

    method AuthorizeLocked(w: World) returns (ok: bool, seen: seq<Happening>)
      modifies this, storage
      ensures (Current(), ok, seen) == Authorize(old(Current()), w)
    {
      ok, seen := false, [];
      if w.discovery.None? {
        return;
      }
      var (meta, resource) := w.discovery.value;
      cachedMeta, cachedResource := Some(meta), resource;
      if storage != null {
        storage.SaveMetadata(meta, resource, w.luck.saveMeta);
      }
      if !w.listening {
        return;
      }
      if cachedClient.None? && meta.registration != "" {
        if w.registration.None? || w.registration.value.id == "" {
          return;
        }
        cachedClient := w.registration;
        if storage != null {
          storage.SaveClient(w.registration.value, w.luck.saveClient);
        }
      }
      ok, seen := FinishAuthorization(w);
    }

    method FinishAuthorization(w: World) returns (ok: bool, seen: seq<Happening>)
      modifies this, storage
      ensures (Current(), ok, seen) == ExchangeCode(old(Current()), w)
    {
      ok, seen := false, [];
      if cachedClient.None? || cachedClient.value.id == "" {
        return;
      }
      if !w.callback {
        return;
      }
      seen := [Exchanged(w.codeReply, w.codeAt)];
      var minted := Mint(w.codeReply, w.codeAt);
      if minted.None? {
        return;
      }
      StoreTokens(minted.value, w);
      ok := true;
    }

    method TokenExpiredLocked(now: int) returns (expired: bool)
      ensures expired <==> cachedTokens.None? || Expired(cachedTokens.value, now)
    {
      if cachedTokens.None? {
        return true;
      }
      if cachedTokens.value.expiresAt.None? {
        return false;
      }
      expired := now > cachedTokens.value.expiresAt.value;
    }

    method Token(w: World) returns (access: string, seen: seq<Happening>)
      modifies this, storage
      ensures (Current(), access, seen) == OAuthModel.Token(old(Current()), w)
    {
      access, seen := "", [];
      EnsureLoadedLocked();
      if cachedTokens.None? || cachedTokens.value.access == "" {
        return;
      }
      var expired := TokenExpiredLocked(w.now);
      if expired {
        if cachedTokens.value.refresh != "" {
          var ok;
          ok, seen := RefreshTokensLocked(w);
          if !ok {
            ClearTokensLocked(w);
            seen := seen + [Cleared];
            return;
          }
          return cachedTokens.value.access, seen;
        }
        ClearTokensLocked(w);
        seen := [Cleared];
        return;
      }
      access := cachedTokens.value.access;
    }

    method HandleUnauthorized(w: World) returns (ok: bool, seen: seq<Happening>)
      modifies this, storage
      ensures (Current(), ok, seen) == OAuthModel.HandleUnauthorized(old(Current()), w)
    {
      EnsureLoadedLocked();
      seen := [];
      if cachedTokens.Some? && cachedTokens.value.refresh != "" {
        ok, seen := RefreshTokensLocked(w);
        if ok {
          return;
        }
        ClearTokensLocked(w);
        seen := seen + [Cleared];
      }
      var more;
      ok, more := AuthorizeLocked(w);
      assert [] + more == more;
      seen := seen + more;
    }
  }
}
