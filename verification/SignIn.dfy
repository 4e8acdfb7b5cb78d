/**
 * The sign-in methods of the single owner (apps/backend/src/auth/auth-config.service.ts,
 * webauthn.service.ts, telegram-oidc.service.ts, bin/cli.ts). Every handler is one atomic step;
 * what the network and the cryptography answer comes in as a parameter.
 */
module SignIn {
  import opened Prelude
  import opened Text

  datatype TelegramFields = TelegramFields(
    enabled: bool, clientId: Option<string>, secret: Option<string>, origin: Option<string>, userId: Option<string>)

  datatype Row = Row(
    passwordEnabled: bool, passkeyEnabled: bool,
    rpId: Option<string>, rpName: Option<string>, rpOrigin: Option<string>,
    telegram: TelegramFields, telegramDisplayName: Option<string>,
    sessionSecret: Option<string>)

  /** A settings patch; a field that is not sent is None. */
  datatype Dto = Dto(
    passwordEnabled: Option<bool>, passkeyEnabled: Option<bool>,
    rpId: Option<string>, rpName: Option<string>, rpOrigin: Option<string>,
    telegramEnabled: Option<bool>, telegramClientId: Option<string>, telegramClientSecret: Option<string>,
    telegramOrigin: Option<string>)

  datatype Outcome = Done | Unauthorized | Conflict | BadRequest | NotFound

  /** The client settings a Telegram link was made under. */
  datatype Client = Client(clientId: string, secret: string, origin: string)

  /** The row set-up creates: password on, everything else off or empty, and a session secret of its own. */
  function NewAdmin(secret: string): Row {
    Row(true, false, None, None, None, TelegramFields(false, None, None, None, None), None, Some(secret))
  }

  predicate Truthy(s: Option<string>) {
    s.Some? && s.value != ""
  }

  /** `value || null` */
  function OrNull(s: string): Option<string> {
    if s == "" then None else Some(s)
  }

  function Or<T>(o: Option<T>, value: T): T {
    if o.Some? then o.value else value
  }

  predicate TelegramReady(t: TelegramFields) {
    Truthy(t.clientId) && Truthy(t.secret) && Truthy(t.origin) && Truthy(t.userId)
  }

  predicate TelegramUsable(t: TelegramFields) {
    t.enabled && TelegramReady(t)
  }

  /** What the lockout guard accepts. */
  predicate GuardPasses(passwordEnabled: bool, passkeyEnabled: bool, passkeyCount: int, telegramUsable: bool) {
    passwordEnabled || (passkeyEnabled && passkeyCount > 0) || telegramUsable
  }

  predicate SignInPossible(row: Row, passkeyCount: int) {
    GuardPasses(row.passwordEnabled, row.passkeyEnabled, passkeyCount, TelegramUsable(row.telegram))
  }

  // ---------------------------------------------------------------- the invariant

  /** Telegram is on only for a complete, linked client; a link was made under the stored settings. */
  ghost predicate TelegramOk(t: TelegramFields, linkedUnder: Option<Client>) {
    && (t.enabled ==> TelegramReady(t))
    && (t.userId.Some? ==>
          && t.clientId.Some? && t.secret.Some? && t.origin.Some?
          && linkedUnder == Some(Client(t.clientId.value, t.secret.value, t.origin.value)))
  }

  ghost predicate RowOk(row: Row, passkeyCount: int, linkedUnder: Option<Client>) {
    SignInPossible(row, passkeyCount) && TelegramOk(row.telegram, linkedUnder)
  }

  // ---------------------------------------------------------------- a settings patch

  /** An empty text clears the field, an absent one keeps it. */
  function Cleared(sent: Option<string>, stored: Option<string>): Option<string> {
    if sent.Some? then OrNull(sent.value) else stored
  }

  function Trimmed(sent: Option<string>): Option<string> {
    if sent.Some? then Some(Trim(sent.value)) else None
  }

  predicate CredsChanged(t: TelegramFields, dto: Dto) {
    Cleared(dto.telegramClientId, t.clientId) != t.clientId || Cleared(dto.telegramOrigin, t.origin) != t.origin
    || Truthy(dto.telegramClientSecret)
  }

  /** The Telegram fields as they are meant to be: new client settings drop the link and the switch. */
  function PatchedTelegram(t: TelegramFields, dto: Dto): TelegramFields {
    var changed := CredsChanged(t, dto);
    TelegramFields(
      !changed && Or(dto.telegramEnabled, t.enabled),
      Cleared(dto.telegramClientId, t.clientId),
      if Truthy(dto.telegramClientSecret) then dto.telegramClientSecret else t.secret,
      Cleared(dto.telegramOrigin, t.origin),
      if changed then None else t.userId)
  }

  /** The row the guard is asked about: every field as it is meant to be after the patch. */
  function Patched(row: Row, dto: Dto): Row {
    Row(Or(dto.passwordEnabled, row.passwordEnabled), Or(dto.passkeyEnabled, row.passkeyEnabled),
        Cleared(Trimmed(dto.rpId), row.rpId), Cleared(Trimmed(dto.rpName), row.rpName),
        Cleared(Trimmed(dto.rpOrigin), row.rpOrigin),
        PatchedTelegram(row.telegram, dto),
        if CredsChanged(row.telegram, dto) then None else row.telegramDisplayName,
        row.sessionSecret)
  }

  predicate PatchAllowed(row: Row, dto: Dto, passkeyCount: int) {
    var after := Patched(row, dto);
    && (!CredsChanged(row.telegram, dto) && dto.telegramEnabled == Some(true) ==> TelegramReady(after.telegram))
    && SignInPossible(after, passkeyCount)
  }

  lemma PatchKeepsTelegramOk(t: TelegramFields, dto: Dto, linkedUnder: Option<Client>)
    requires TelegramOk(t, linkedUnder)
    requires !CredsChanged(t, dto) && dto.telegramEnabled == Some(true) ==> TelegramReady(PatchedTelegram(t, dto))
    ensures TelegramOk(PatchedTelegram(t, dto), linkedUnder)
  {
    hide OrNull;
  }

  /** The Telegram values the handler computes, and whether the client settings changed. */
  method ComputeTelegram(t: TelegramFields, dto: Dto)
    returns (telegram: TelegramFields, credsChanged: bool, newSecret: Option<string>)
    ensures telegram == PatchedTelegram(t, dto) && credsChanged == CredsChanged(t, dto)
    ensures newSecret == if Truthy(dto.telegramClientSecret) then dto.telegramClientSecret else None
  {
    var clientId := if dto.telegramClientId.Some? then OrNull(dto.telegramClientId.value) else t.clientId;
    var origin := if dto.telegramOrigin.Some? then OrNull(dto.telegramOrigin.value) else t.origin;
    newSecret := if dto.telegramClientSecret.Some? then OrNull(dto.telegramClientSecret.value) else None;
    credsChanged := clientId != t.clientId || origin != t.origin || newSecret != None;
    telegram := TelegramFields(
      if credsChanged then false else Or(dto.telegramEnabled, t.enabled),
      clientId,
      if newSecret.Some? then newSecret else t.secret,
      origin,
      if credsChanged then None else t.userId);
  }

  /** The columns of the update, one by one: only what the patch names or invalidates is written. */
  method WriteColumns(row: Row, dto: Dto) returns (data: Row)
    ensures data == row.(
              passwordEnabled := Or(dto.passwordEnabled, row.passwordEnabled),
              passkeyEnabled := Or(dto.passkeyEnabled, row.passkeyEnabled),
              rpId := Cleared(Trimmed(dto.rpId), row.rpId), rpName := Cleared(Trimmed(dto.rpName), row.rpName),
              rpOrigin := Cleared(Trimmed(dto.rpOrigin), row.rpOrigin))
  {
    hide Trim, OrNull;
    data := row;
    if dto.passwordEnabled.Some? {
      data := data.(passwordEnabled := dto.passwordEnabled.value);
    }
    if dto.passkeyEnabled.Some? {
      data := data.(passkeyEnabled := dto.passkeyEnabled.value);
    }
    if dto.rpId.Some? {
      data := data.(rpId := OrNull(Trim(dto.rpId.value)));
    }
    if dto.rpName.Some? {
      data := data.(rpName := OrNull(Trim(dto.rpName.value)));
    }
    if dto.rpOrigin.Some? {
      data := data.(rpOrigin := OrNull(Trim(dto.rpOrigin.value)));
    }
  }

  method WriteTelegram(stored: TelegramFields, dto: Dto, telegram: TelegramFields, credsChanged: bool,
                       newSecret: Option<string>) returns (data: TelegramFields)
    requires telegram == PatchedTelegram(stored, dto) && credsChanged == CredsChanged(stored, dto)
    requires newSecret == if Truthy(dto.telegramClientSecret) then dto.telegramClientSecret else None
    ensures data == telegram
  {
    hide OrNull;
    data := stored;
    if dto.telegramClientId.Some? {
      data := data.(clientId := telegram.clientId);
    }
    if dto.telegramOrigin.Some? {
      data := data.(origin := telegram.origin);
    }
    if newSecret.Some? {
      data := data.(secret := telegram.secret);
    }
    if dto.telegramEnabled.Some? || credsChanged {
      data := data.(enabled := telegram.enabled);
    }
    if credsChanged {
      data := data.(userId := None);
    }
  }

  // ---------------------------------------------------------------- the Telegram round trip

  datatype Mode = Login | Link

  /** What the encrypted cookie carries. */
  datatype Flow = Flow(mode: Mode, clientId: string, redirectUri: string)

  datatype Identity = Identity(telegramId: string, displayName: Option<string>)

  datatype CallbackOutcome = Failed | Linked | LoggedIn(telegramId: string)

  const TELEGRAM_CALLBACK_PATH: string := "/api/auth/telegram/callback"

  /** The stored client, if complete; `readable` is whether the secret decrypts. */
  function TelegramClient(t: TelegramFields, readable: bool): Option<Client> {
    if !Truthy(t.clientId) || !Truthy(t.secret) || !Truthy(t.origin) || !readable then None
    else Some(Client(t.clientId.value, t.secret.value, t.origin.value))
  }

  function Unlinked(row: Row): Row {
    row.(telegram := row.telegram.(userId := None, enabled := false), telegramDisplayName := None)
  }

  function LinkedTo(row: Row, identity: Identity): Row {
    row.(telegram := row.telegram.(userId := Some(identity.telegramId), enabled := true),
         telegramDisplayName := identity.displayName)
  }

  /** Begin a round trip: what goes into the cookie, if the request is accepted at all. */
  function StartedFlow(row: Option<Row>, mode: Mode, readable: bool, requestOrigin: Option<string>): Option<Flow> {
    if row.None? || (mode == Login && !TelegramUsable(row.value.telegram)) then None
    else
      var client := TelegramClient(row.value.telegram, readable);
      if client.None? || (Truthy(requestOrigin) && requestOrigin.value != client.value.origin) then None
      else Some(Flow(mode, client.value.clientId, client.value.origin + TELEGRAM_CALLBACK_PATH))
  }

  /** How a round trip ends, by what is stored then and what the outside answers. */
  function CallbackResult(row: Option<Row>, flow: Option<Flow>, hasCode: bool, readable: bool,
                          exchange: Option<Identity>): CallbackOutcome {
    var client := if row.Some? then TelegramClient(row.value.telegram, readable) else None;
    if flow.None? || !hasCode || client.None? || exchange.None? then Failed
    else if flow.value.clientId != client.value.clientId
            || flow.value.redirectUri != client.value.origin + TELEGRAM_CALLBACK_PATH then Failed
    else if flow.value.mode == Link then Linked
    else if TelegramUsable(row.value.telegram) && Some(exchange.value.telegramId) == row.value.telegram.userId then
      LoggedIn(exchange.value.telegramId)
    else Failed
  }

  // ---------------------------------------------------------------- signing in with a passkey

  /** The relying party's origins: a comma-separated list. */
  function Origins(rpOrigin: string): seq<string> {
    NonEmpty(SplitAt(rpOrigin, ','))
  }

  /** What is left of the parts after trimming. */
  function NonEmpty(parts: seq<string>): seq<string> {
    if parts == [] then []
    else
      var part := Trim(parts[|parts| - 1]);
      NonEmpty(parts[..|parts| - 1]) + if part == "" then [] else [part]
  }

  /** The registered passkeys, each with the relying party ID in force when it was made, which it is bound to. */
  type Passkeys = map<string, string>

  /**
   * Both steps of a passkey login, with the key `uuid`, by a browser that shows the panel under
   * `origin`; `verified` is the rest of the check of the authenticator's answer.
   */
  function PasskeyLoginResult(row: Option<Row>, passkeys: Passkeys, uuid: string, origin: string,
                              verified: bool): Outcome {
    if row.None? || !row.value.passkeyEnabled || passkeys == map[] then Unauthorized
    else if !Truthy(row.value.rpId) || !Truthy(row.value.rpOrigin) then BadRequest
    else if uuid in passkeys && passkeys[uuid] == row.value.rpId.value
            && origin in Origins(row.value.rpOrigin.value) && verified then Done
    else Unauthorized
  }

  // ---------------------------------------------------------------- in stored fields

  predicate Filled(s: Option<string>) {
    s.Some? && |s.value| > 0
  }

  /** A complete Telegram client whose secret can be read. */
  predicate ClientReady(t: TelegramFields, readable: bool) {
    Filled(t.clientId) && Filled(t.secret) && Filled(t.origin) && readable
  }

  /** A round trip starts for a ready client, from its own origin, and for a login only when the link is on. */
  lemma StartedFlowIff(row: Row, mode: Mode, readable: bool, requestOrigin: Option<string>, flow: Flow)
    ensures StartedFlow(None, mode, readable, requestOrigin) == None
    ensures var t := row.telegram;
            StartedFlow(Some(row), mode, readable, requestOrigin) == Some(flow)
            <==> && ClientReady(t, readable) && (Filled(requestOrigin) ==> requestOrigin == t.origin)
                 && (mode == Login ==> t.enabled && Filled(t.userId))
                 && flow.mode == mode && Some(flow.clientId) == t.clientId
                 && flow.redirectUri == t.origin.value + "/api/auth/telegram/callback"
  {
  }

  /** The answer comes back to the client the trip started with, and the code was traded for an identity. */
  predicate ComesBack(t: TelegramFields, flow: Option<Flow>, hasCode: bool, readable: bool,
                      exchange: Option<Identity>) {
    && ClientReady(t, readable) && flow.Some? && hasCode && exchange.Some?
    && Some(flow.value.clientId) == t.clientId
    && flow.value.redirectUri == t.origin.value + "/api/auth/telegram/callback"
  }

  lemma CallbackIff(row: Row, flow: Option<Flow>, hasCode: bool, readable: bool, exchange: Option<Identity>, id: string)
    ensures CallbackResult(None, flow, hasCode, readable, exchange) == Failed
    ensures var t, result := row.telegram, CallbackResult(Some(row), flow, hasCode, readable, exchange);
            && (result == Linked <==> ComesBack(t, flow, hasCode, readable, exchange) && flow.value.mode == Link)
            && (result == LoggedIn(id)
                <==> && ComesBack(t, flow, hasCode, readable, exchange) && flow.value.mode == Login
                     && t.enabled && |id| > 0 && t.userId == Some(id) && exchange.value.telegramId == id)
  {
  }

  /** A link stores the account and switches Telegram on; without it both are gone; nothing else changes. */
  lemma LinkIs(row: Row, identity: Identity)
    ensures var on, off := LinkedTo(row, identity), Unlinked(row);
            && on.telegram.enabled && on.telegram.userId == Some(identity.telegramId)
            && on.telegramDisplayName == identity.displayName
            && !off.telegram.enabled && off.telegram.userId == None && off.telegramDisplayName == None
            && SameBesidesLink(row, on) && SameBesidesLink(row, off)
  {
  }

  predicate SameBesidesLink(row: Row, after: Row) {
    && after.passwordEnabled == row.passwordEnabled && after.passkeyEnabled == row.passkeyEnabled
    && after.rpId == row.rpId && after.rpName == row.rpName && after.rpOrigin == row.rpOrigin
    && after.sessionSecret == row.sessionSecret && after.telegram.clientId == row.telegram.clientId
    && after.telegram.secret == row.telegram.secret && after.telegram.origin == row.telegram.origin
  }

  /** One of the comma-separated origins, without blanks around it. */
  ghost predicate ListsOrigin(rpOrigin: string, origin: string) {
    origin != "" && exists i, j :: IsPart(rpOrigin, ',', i, j) && origin == Trim(rpOrigin[i..j])
  }

  lemma {:induction false} NonEmptyIff(parts: seq<string>, origin: string)
    ensures origin in NonEmpty(parts) <==> origin != "" && exists part :: part in parts && origin == Trim(part)
  {
    hide Trim;
    if parts != [] {
      NonEmptyIff(parts[..|parts| - 1], origin);
    }
  }

  lemma OriginsIff(rpOrigin: string, origin: string)
    ensures origin in Origins(rpOrigin) <==> ListsOrigin(rpOrigin, origin)
  {
    hide Trim, SplitAt;
    NonEmptyIff(SplitAt(rpOrigin, ','), origin);
    if part :| part in SplitAt(rpOrigin, ',') && origin == Trim(part) {
      SplitIff(rpOrigin, ',', part);
    }
    if i, j :| IsPart(rpOrigin, ',', i, j) && origin == Trim(rpOrigin[i..j]) {
      SplitIff(rpOrigin, ',', rpOrigin[i..j]);
    }
  }

  /** A passkey login works with a key made for the stored relying party, at one of its origins. */
  lemma PasskeyLoginIff(row: Row, passkeys: Passkeys, uuid: string, origin: string, verified: bool)
    ensures PasskeyLoginResult(None, passkeys, uuid, origin, verified) == Unauthorized
    ensures var outcome := PasskeyLoginResult(Some(row), passkeys, uuid, origin, verified);
            && (outcome == Done
                <==> && row.passkeyEnabled && Filled(row.rpId) && row.rpOrigin.Some? && uuid in passkeys
                     && Some(passkeys[uuid]) == row.rpId && ListsOrigin(row.rpOrigin.value, origin) && verified)
            && (outcome == BadRequest
                <==> row.passkeyEnabled && passkeys != map[] && !(Filled(row.rpId) && Filled(row.rpOrigin)))
            && (outcome == Done || outcome == BadRequest || outcome == Unauthorized)
  {
    hide ListsOrigin, Origins;
    if row.rpOrigin.Some? {
      OriginsIff(row.rpOrigin.value, origin);
      NoOriginInNothing(row.rpOrigin.value, origin);
    }
  }

  lemma NoOriginInNothing(rpOrigin: string, origin: string)
    ensures rpOrigin == "" ==> !ListsOrigin(rpOrigin, origin)
  {
    if rpOrigin == "" {
      assert Trim("") == "";
      assert forall i, j :: IsPart(rpOrigin, ',', i, j) ==> rpOrigin[i..j] == "";
    }
  }

  // ---------------------------------------------------------------- the state of the panel

  /** The stored row and keys, what the process remembers, and under what the link was made. */
  datatype Panel = Panel(
    row: Option<Row>, passkeys: Passkeys, cachedSecret: Option<string>, linkedUnder: Option<Client>)

  const NEW_PANEL: Panel := Panel(None, map[], None, None)

  ghost predicate PanelOk(p: Panel) {
    p.row.Some? ==>
      && RowOk(p.row.value, |p.passkeys|, p.linkedUnder)
      && (p.cachedSecret.Some? ==> p.row.value.sessionSecret == p.cachedSecret)
  }

  /** The session secret of a request (None if it cannot be read) and the state after it. */
  function SessionSecret(p: Panel, random: string, readable: bool): (Option<string>, Panel) {
    if p.cachedSecret.Some? then (p.cachedSecret, p)
    else if p.row.None? then (Some(random), p)
    else if p.row.value.sessionSecret.None? then
      (Some(random), p.(row := Some(p.row.value.(sessionSecret := Some(random))), cachedSecret := Some(random)))
    else if readable then (p.row.value.sessionSecret, p.(cachedSecret := p.row.value.sessionSecret))
    else (None, p)
  }

  // ---------------------------------------------------------------- the service

  class AuthStore {
    var row: Option<Row>
    var passkeys: Passkeys
    /** What this process remembers of the session secret. */
    var cachedSecret: Option<string>
    ghost var linkedUnder: Option<Client>

    ghost predicate Valid()
      reads this
    {
      PanelOk(State())
    }

    ghost function State(): Panel
      reads this
    {
      Panel(row, passkeys, cachedSecret, linkedUnder)
    }

    constructor ()
      ensures Valid() && State() == NEW_PANEL
    {
      row, passkeys, cachedSecret, linkedUnder := None, map[], None, None;
    }

    method Setup(secret: string) returns (outcome: Outcome)
      requires Valid()
      modifies this`row, this`cachedSecret
      ensures Valid()
      ensures outcome == if old(row).Some? then Conflict else Done
      ensures outcome.Done? ==> row == Some(NewAdmin(secret)) && cachedSecret == Some(secret)
      ensures !outcome.Done? ==> row == old(row) && cachedSecret == old(cachedSecret)
    {
      if row.Some? {
        return Conflict;
      }
      row, cachedSecret := Some(NewAdmin(secret)), Some(secret);
      return Done;
    }

    /** The columns actually written add up to the state the guard was asked about. */
    method PatchConfig(dto: Dto) returns (outcome: Outcome)
      requires Valid()
      modifies this`row
      ensures Valid()
      ensures outcome == if old(row).None? then Unauthorized
                         else if PatchAllowed(old(row).value, dto, |passkeys|) then Done else BadRequest
      ensures row == if outcome.Done? then Some(Patched(old(row).value, dto)) else old(row)
    {
      hide TelegramReady, PatchedTelegram, CredsChanged, TelegramOk, Cleared, Trimmed, Or;
      if row.None? {
        return Unauthorized;
      }
      var r := row.value;
      var passwordEnabled := Or(dto.passwordEnabled, r.passwordEnabled);
      var passkeyEnabled := Or(dto.passkeyEnabled, r.passkeyEnabled);
      var telegram, credsChanged, newSecret := ComputeTelegram(r.telegram, dto);
      if !credsChanged && dto.telegramEnabled == Some(true) && !TelegramReady(telegram) {
        return BadRequest;
      }
      if !GuardPasses(passwordEnabled, passkeyEnabled, |passkeys|, TelegramUsable(telegram)) {
        return BadRequest;
      }
      PatchKeepsTelegramOk(r.telegram, dto, linkedUnder);
      var data := WriteColumns(r, dto);
      var written := WriteTelegram(r.telegram, dto, telegram, credsChanged, newSecret);
      data := data.(telegram := written);
      if credsChanged {
        data := data.(telegramDisplayName := None);
      }
      row := Some(data);
      return Done;
    }

    method UnlinkTelegram() returns (outcome: Outcome)
      requires Valid()
      modifies this`row
      ensures Valid()
      ensures outcome == if old(row).None? then Unauthorized
                         else if GuardPasses(old(row).value.passwordEnabled, old(row).value.passkeyEnabled,
                                             |passkeys|, false)
                         then Done else BadRequest
      ensures row == if outcome.Done? then Some(Unlinked(old(row).value)) else old(row)
    {
      if row.None? {
        return Unauthorized;
      }
      var r := row.value;
      if !GuardPasses(r.passwordEnabled, r.passkeyEnabled, |passkeys|, false) {
        return BadRequest;
      }
      row := Some(Unlinked(r));
      return Done;
    }

    /** Begin a round trip; the flow goes into an encrypted cookie. */
    method StartTelegram(mode: Mode, readable: bool, requestOrigin: Option<string>) returns (flow: Option<Flow>)
      ensures flow == StartedFlow(row, mode, readable, requestOrigin)
    {
      if row.None? {
        return None;
      }
      if mode == Login && !TelegramUsable(row.value.telegram) {
        return None;
      }
      var client := TelegramClient(row.value.telegram, readable);
      if client.None? {
        return None;
      }
      if Truthy(requestOrigin) && requestOrigin.value != client.value.origin {
        return None;
      }
      return Some(Flow(mode, client.value.clientId, client.value.origin + TELEGRAM_CALLBACK_PATH));
    }

    /** Passkey login: the options, and the answer of a key checked against the relying party of now. */
    method PasskeyLogin(uuid: string, origin: string, verified: bool) returns (outcome: Outcome)
      ensures outcome == PasskeyLoginResult(row, passkeys, uuid, origin, verified)
    {
      if row.None? || !row.value.passkeyEnabled {
        return Unauthorized;
      }
      if |passkeys| == 0 {
        return Unauthorized;
      }
      if !Truthy(row.value.rpId) || !Truthy(row.value.rpOrigin) {
        return BadRequest;
      }
      var expectedRpId, origins := row.value.rpId.value, Origins(row.value.rpOrigin.value);
      if uuid !in passkeys {
        return Unauthorized;
      }
      if passkeys[uuid] != expectedRpId || origin !in origins || !verified {
        return Unauthorized;
      }
      return Done;
    }

    /**
     * The secret that signs and checks sessions; None is the decryption that throws. `random` are the
     * random bytes of this call, `readable` is whether the stored secret decrypts.
     */
    method GetSessionSecret(random: string, readable: bool) returns (secret: Option<string>)
      requires Valid()
      modifies this`row, this`cachedSecret
      ensures Valid() && SessionSecret(old(State()), random, readable) == (secret, State())
    {
      if cachedSecret.Some? {
        return cachedSecret;
      }
      if row.None? {
        return Some(random);
      }
      if row.value.sessionSecret.Some? {
        if !readable {
          return None;
        }
        cachedSecret := row.value.sessionSecret;
        return cachedSecret;
      }
      row := Some(row.value.(sessionSecret := Some(random)));
      cachedSecret := Some(random);
      return cachedSecret;
    }

    /** The process starts anew. */
    method Restart()
      requires Valid()
      modifies this`cachedSecret
      ensures Valid() && cachedSecret == None
    {
      cachedSecret := None;
    }

    /**
     * End of a round trip. `flow` is the cookie's content if it is authentic, unexpired and matches
     * the state; `exchange` is the verified identity if trading the code with the stored client
     * worked out.
     */
    method HandleCallback(flow: Option<Flow>, hasCode: bool, readable: bool, exchange: Option<Identity>)
      returns (outcome: CallbackOutcome)
      requires Valid()
      requires exchange.Some? ==> exchange.value.telegramId != ""
      modifies this`row, this`linkedUnder
      ensures Valid()
      ensures outcome == CallbackResult(old(row), flow, hasCode, readable, exchange)
      ensures !outcome.Linked? ==> row == old(row) && linkedUnder == old(linkedUnder)
      ensures outcome.Linked? ==>
                && flow.Some? && flow.value.mode == Link && exchange.Some? && old(row).Some?
                && TelegramClient(old(row).value.telegram, readable).Some?
                && linkedUnder == TelegramClient(old(row).value.telegram, readable)
                && linkedUnder.value.clientId == flow.value.clientId
                && linkedUnder.value.origin + TELEGRAM_CALLBACK_PATH == flow.value.redirectUri
                && row == Some(LinkedTo(old(row).value, exchange.value))
      ensures outcome.LoggedIn? ==>
                && row.Some? && TelegramUsable(row.value.telegram)
                && row.value.telegram.userId == Some(outcome.telegramId)
                && exchange.Some? && exchange.value.telegramId == outcome.telegramId
    {
      if flow.None? || !hasCode {
        return Failed;
      }
      var client := if row.Some? then TelegramClient(row.value.telegram, readable) else None;
      if client.None? {
        return Failed;
      }
      if flow.value.clientId != client.value.clientId
         || flow.value.redirectUri != client.value.origin + TELEGRAM_CALLBACK_PATH {
        return Failed;
      }
      if exchange.None? {
        return Failed;
      }
      var identity := exchange.value;
      if flow.value.mode == Link {
        row := Some(LinkedTo(row.value, identity));
        linkedUnder := client;
        return Linked;
      }
      if !TelegramUsable(row.value.telegram) {
        return Failed;
      }
      if Some(identity.telegramId) != row.value.telegram.userId {
        return Failed;
      }
      return LoggedIn(identity.telegramId);
    }

    /** A verified registration; it needs the relying party to be configured, and binds the key to it. */
    method RegisterPasskey(uuid: string, verified: bool) returns (outcome: Outcome)
      requires Valid() && uuid !in passkeys
      modifies this`passkeys
      ensures Valid()
      ensures outcome == if row.None? then Unauthorized
                         else if Truthy(row.value.rpId) && Truthy(row.value.rpOrigin) && verified
                         then Done else BadRequest
      ensures passkeys == if outcome.Done? then old(passkeys)[uuid := row.value.rpId.value] else old(passkeys)
    {
      if row.None? {
        return Unauthorized;
      }
      if !Truthy(row.value.rpId) || !Truthy(row.value.rpOrigin) || !verified {
        return BadRequest;
      }
      passkeys := passkeys[uuid := row.value.rpId.value];
      return Done;
    }

    method DeletePasskey(uuid: string) returns (outcome: Outcome)
      requires Valid()
      modifies this`passkeys
      ensures Valid()
      ensures outcome == if row.None? then Unauthorized
                         else if uuid !in old(passkeys) then NotFound
                         else if SignInPossible(row.value, |old(passkeys)| - 1) then Done else BadRequest
      ensures passkeys == if outcome.Done? then old(passkeys) - {uuid} else old(passkeys)
    {
      if row.None? {
        return Unauthorized;
      }
      if uuid !in passkeys {
        return NotFound;
      }
      if !SignInPossible(row.value, |passkeys| - 1) {
        return BadRequest;
      }
      passkeys := passkeys - {uuid};
      return Done;
    }

    /** The recovery command that switches the password back on. */
    method EnablePassword()
      requires Valid()
      modifies this`row
      ensures Valid()
      ensures row == if old(row).Some? then Some(old(row).value.(passwordEnabled := true)) else None
    {
      if row.Some? {
        row := Some(row.value.(passwordEnabled := true));
      }
    }

    /** The recovery command that wipes the account and every passkey. */
    method ResetAdmin()
      requires Valid()
      modifies this`row, this`passkeys
      ensures Valid() && row == None && passkeys == map[]
    {
      row, passkeys := None, map[];
    }

    /** One command; a uuid that is taken already is not registered again. */
    method Perform(c: Command)
      requires Valid() && (c.Callback? && c.exchange.Some? ==> c.exchange.value.telegramId != "")
      modifies this
      ensures Valid() && State() == Step(old(State()), c)
    {
      hide PanelOk, PatchAllowed, Patched, Truthy, NewAdmin, Unlinked, LinkedTo, GuardPasses,
           CallbackResult, SignInPossible, TelegramClient, SessionSecret;
      match c
      case SetupAdmin(secret) => var _ := Setup(secret);
      case Patch(dto) => var _ := PatchConfig(dto);
      case Unlink => var _ := UnlinkTelegram();
      case Callback(flow, hasCode, readable, exchange) =>
        var _ := HandleCallback(flow, hasCode, readable, exchange);
      case Register(uuid, verified) =>
        if uuid !in passkeys {
          var _ := RegisterPasskey(uuid, verified);
        }
      case Delete(uuid) => var _ := DeletePasskey(uuid);
      case Session(random, secretReadable) => var _ := GetSessionSecret(random, secretReadable);
      case ProcessRestart => Restart();
      case CliEnablePassword => EnablePassword();
      case CliReset => ResetAdmin();
    }
  }

  // ---------------------------------------------------------------- every run

  datatype Command =
    | SetupAdmin(secret: string)
    | Patch(dto: Dto)
    | Unlink
    | Callback(flow: Option<Flow>, hasCode: bool, readable: bool, exchange: Option<Identity>)
    | Register(uuid: string, verified: bool)
    | Delete(uuid: string)
    | Session(random: string, secretReadable: bool)
    | ProcessRestart
    | CliEnablePassword
    | CliReset

  /** What one command makes of the panel; a refused one leaves it as it is. */
  function Step(p: Panel, c: Command): Panel {
    match c
    case SetupAdmin(secret) =>
      if p.row.Some? then p else p.(row := Some(NewAdmin(secret)), cachedSecret := Some(secret))
    case Patch(dto) =>
      if p.row.Some? && PatchAllowed(p.row.value, dto, |p.passkeys|)
      then p.(row := Some(Patched(p.row.value, dto))) else p
    case Unlink =>
      if p.row.Some? && GuardPasses(p.row.value.passwordEnabled, p.row.value.passkeyEnabled, |p.passkeys|, false)
      then p.(row := Some(Unlinked(p.row.value))) else p
    case Callback(flow, hasCode, readable, exchange) =>
      if CallbackResult(p.row, flow, hasCode, readable, exchange).Linked?
      then p.(row := Some(LinkedTo(p.row.value, exchange.value)),
              linkedUnder := TelegramClient(p.row.value.telegram, readable))
      else p
    case Register(uuid, verified) =>
      if uuid !in p.passkeys && p.row.Some? && Truthy(p.row.value.rpId) && Truthy(p.row.value.rpOrigin) && verified
      then p.(passkeys := p.passkeys[uuid := p.row.value.rpId.value]) else p
    case Delete(uuid) =>
      if p.row.Some? && uuid in p.passkeys && SignInPossible(p.row.value, |p.passkeys| - 1)
      then p.(passkeys := p.passkeys - {uuid}) else p
    case Session(random, secretReadable) => SessionSecret(p, random, secretReadable).1
    case ProcessRestart => p.(cachedSecret := None)
    case CliEnablePassword =>
      if p.row.Some? then p.(row := Some(p.row.value.(passwordEnabled := true))) else p
    case CliReset => p.(row := None, passkeys := map[])
  }

  function Run(p: Panel, commands: seq<Command>): Panel {
    if commands == [] then p else Step(Run(p, commands[..|commands| - 1]), commands[|commands| - 1])
  }

  /**
   * Any sequence of requests: the store ends in the state the commands lead to, and the owner is
   * never left without a method that satisfies the guard.
   */
  method Replay(commands: seq<Command>) returns (store: AuthStore)
    requires forall c :: c in commands && c.Callback? && c.exchange.Some? ==> c.exchange.value.telegramId != ""
    ensures fresh(store) && store.Valid() && store.State() == Run(NEW_PANEL, commands)
  {
    hide PanelOk, Step;
    store := new AuthStore();
    for i := 0 to |commands|
      invariant store.Valid() && store.State() == Run(NEW_PANEL, commands[..i])
    {
      assert commands[i] in commands && commands[..i + 1][..i] == commands[..i];
      store.Perform(commands[i]);
    }
    assert commands[..|commands|] == commands;
  }

  // ---------------------------------------------------------------- the lockout law in stored fields

  /** A password, a registered passkey, or a complete and linked Telegram account is there to sign in with. */
  predicate MethodLeft(row: Row, passkeys: Passkeys) {
    || row.passwordEnabled
    || (row.passkeyEnabled && passkeys != map[])
    || (row.telegram.enabled && Filled(row.telegram.clientId) && Filled(row.telegram.secret)
        && Filled(row.telegram.origin) && Filled(row.telegram.userId))
  }

  lemma GuardIffMethodLeft(row: Row, passkeys: Passkeys)
    ensures SignInPossible(row, |passkeys|) <==> MethodLeft(row, passkeys)
  {
    assert |passkeys| == 0 <==> passkeys == map[];
  }

  ghost predicate NamesAccounts(commands: seq<Command>) {
    forall c :: c in commands && c.Callback? && c.exchange.Some? ==> c.exchange.value.telegramId != ""
  }

  lemma StepKeepsPanelOk(p: Panel, c: Command)
    requires PanelOk(p) && (c.Callback? && c.exchange.Some? ==> c.exchange.value.telegramId != "")
    ensures PanelOk(Step(p, c))
  {
    hide PanelOk, Step;
    match c
    case Patch(dto) => PatchKeepsPanelOk(p, dto);
    case Callback(_, _, _, _) => CallbackKeepsPanelOk(p, c);
    case Register(_, _) => PasskeysKeepPanelOk(p, c);
    case Delete(_) => PasskeysKeepPanelOk(p, c);
    case _ => OthersKeepPanelOk(p, c);
  }

  lemma PatchKeepsPanelOk(p: Panel, dto: Dto)
    requires PanelOk(p)
    ensures PanelOk(Step(p, Patch(dto)))
  {
    hide PatchedTelegram, Trimmed, Cleared, CredsChanged, Or, GuardPasses, TelegramOk;
    if p.row.Some? && PatchAllowed(p.row.value, dto, |p.passkeys|) {
      PatchKeepsTelegramOk(p.row.value.telegram, dto, p.linkedUnder);
    }
  }

  lemma CallbackKeepsPanelOk(p: Panel, c: Command)
    requires PanelOk(p) && c.Callback? && (c.exchange.Some? ==> c.exchange.value.telegramId != "")
    ensures PanelOk(Step(p, c))
  {
    hide CallbackResult;
    LinkedNeeds(p.row, c.flow, c.hasCode, c.readable, c.exchange);
  }

  lemma PasskeysKeepPanelOk(p: Panel, c: Command)
    requires PanelOk(p) && (c.Register? || c.Delete?)
    ensures PanelOk(Step(p, c))
  {
    hide TelegramOk, TelegramUsable, Truthy;
    if c.Register? {
      assert c.uuid !in p.passkeys ==> |p.passkeys[c.uuid := ""]| == |p.passkeys| + 1;
    } else {
      assert c.uuid in p.passkeys ==> |p.passkeys - {c.uuid}| == |p.passkeys| - 1;
    }
  }

  lemma OthersKeepPanelOk(p: Panel, c: Command)
    requires PanelOk(p) && !c.Patch? && !c.Callback? && !c.Register? && !c.Delete?
    ensures PanelOk(Step(p, c))
  {
    hide Truthy;
  }

  lemma LinkedNeeds(row: Option<Row>, flow: Option<Flow>, hasCode: bool, readable: bool, exchange: Option<Identity>)
    ensures CallbackResult(row, flow, hasCode, readable, exchange).Linked? ==>
              row.Some? && exchange.Some? && TelegramClient(row.value.telegram, readable).Some?
  {
  }

  lemma {:induction false} RunKeepsPanelOk(p: Panel, commands: seq<Command>)
    requires PanelOk(p) && NamesAccounts(commands)
    ensures PanelOk(Run(p, commands))
  {
    hide PanelOk, Step;
    if commands != [] {
      var n := |commands| - 1;
      assert commands[n] in commands && forall c :: c in commands[..n] ==> c in commands;
      RunKeepsPanelOk(p, commands[..n]);
      StepKeepsPanelOk(Run(p, commands[..n]), commands[n]);
    }
  }

  /** After any run of commands an account that exists has a method left. */
  lemma {:induction false} SomeMethodIsLeft(commands: seq<Command>)
    requires NamesAccounts(commands)
    ensures var p := Run(NEW_PANEL, commands); p.row.Some? ==> MethodLeft(p.row.value, p.passkeys)
  {
    hide Step, MethodLeft, TelegramOk;
    RunKeepsPanelOk(NEW_PANEL, commands);
    var p := Run(NEW_PANEL, commands);
    if p.row.Some? {
      GuardIffMethodLeft(p.row.value, p.passkeys);
    }
  }

  /**
   * The rest of what holds after any run: Telegram is on only with a complete client and account, a
   * linked account was linked under the very settings stored, and a remembered session secret is the
   * stored one.
   */
  lemma WhatIsStoredFits(commands: seq<Command>)
    requires NamesAccounts(commands)
    ensures var p := Run(NEW_PANEL, commands);
            p.row.Some? ==>
              var row, t := p.row.value, p.row.value.telegram;
              && (t.enabled ==> Filled(t.clientId) && Filled(t.secret) && Filled(t.origin) && Filled(t.userId))
              && (t.userId.Some? ==>
                    && t.clientId.Some? && t.secret.Some? && t.origin.Some?
                    && p.linkedUnder == Some(Client(t.clientId.value, t.secret.value, t.origin.value)))
              && (p.cachedSecret.Some? ==> p.cachedSecret == row.sessionSecret)
  {
    hide Step;
    RunKeepsPanelOk(NEW_PANEL, commands);
  }

  /** A text that was sent is stored, an empty one as nothing; one that was not sent changes nothing. */
  predicate Sent(dto: Option<string>, before: Option<string>, after: Option<string>) {
    && (dto.None? ==> after == before)
    && (dto.Some? && dto.value == "" ==> after == None)
    && (dto.Some? && dto.value != "" ==> after == dto)
  }

  /** The patch names no client setting that differs from the stored one; a secret always counts as new. */
  predicate ClientStays(t: TelegramFields, dto: Dto) {
    && Sent(dto.telegramClientId, t.clientId, t.clientId) && Sent(dto.telegramOrigin, t.origin, t.origin)
    && !Filled(dto.telegramClientSecret)
  }

  /** What a patch that is let through stores, field by field. */
  lemma PatchedIs(row: Row, dto: Dto)
    ensures var after := Patched(row, dto); var t, u := row.telegram, after.telegram;
            && after.passwordEnabled == (if dto.passwordEnabled.Some? then dto.passwordEnabled.value
                                         else row.passwordEnabled)
            && after.passkeyEnabled == (if dto.passkeyEnabled.Some? then dto.passkeyEnabled.value
                                        else row.passkeyEnabled)
            && Sent(if dto.rpId.Some? then Some(Trim(dto.rpId.value)) else None, row.rpId, after.rpId)
            && Sent(if dto.rpName.Some? then Some(Trim(dto.rpName.value)) else None, row.rpName, after.rpName)
            && Sent(if dto.rpOrigin.Some? then Some(Trim(dto.rpOrigin.value)) else None, row.rpOrigin, after.rpOrigin)
            && Sent(dto.telegramClientId, t.clientId, u.clientId) && Sent(dto.telegramOrigin, t.origin, u.origin)
            && u.secret == (if Filled(dto.telegramClientSecret) then dto.telegramClientSecret else t.secret)
            && after.sessionSecret == row.sessionSecret
            && (if ClientStays(t, dto) then
                  && u.enabled == (if dto.telegramEnabled.Some? then dto.telegramEnabled.value else t.enabled)
                  && u.userId == t.userId && after.telegramDisplayName == row.telegramDisplayName
                else !u.enabled && u.userId == None && after.telegramDisplayName == None)
  {
    hide Trim;
  }

  /**
   * A patch, an unlinking and a deletion are turned down only if no method would be left after
   * them, or if a patch switches Telegram on that is not complete and linked.
   */
  lemma PatchAllowedIff(row: Row, dto: Dto, passkeys: Passkeys)
    ensures PatchAllowed(row, dto, |passkeys|)
            <==> && MethodLeft(Patched(row, dto), passkeys)
                 && (ClientStays(row.telegram, dto) && dto.telegramEnabled == Some(true) ==>
                       && Filled(row.telegram.clientId) && Filled(row.telegram.secret)
                       && Filled(row.telegram.origin) && Filled(row.telegram.userId))
  {
    hide MethodLeft, SignInPossible, Trim;
    GuardIffMethodLeft(Patched(row, dto), passkeys);
  }

  lemma UnlinkOrDeleteAllowedIff(row: Row, passkeys: Passkeys, uuid: string)
    ensures GuardPasses(row.passwordEnabled, row.passkeyEnabled, |passkeys|, false)
            <==> MethodLeft(Unlinked(row), passkeys)
    ensures uuid in passkeys ==> (SignInPossible(row, |passkeys| - 1) <==> MethodLeft(row, passkeys - {uuid}))
  {
    hide MethodLeft;
    GuardIffMethodLeft(Unlinked(row), passkeys);
    GuardIffMethodLeft(row, passkeys - {uuid});
    assert uuid in passkeys ==> |passkeys - {uuid}| == |passkeys| - 1;
  }

  /** The account's session secret is `secret`, and the process remembers that one or none. */
  predicate HasSecret(p: Panel, secret: string) {
    && p.row.Some? && p.row.value.sessionSecret == Some(secret)
    && (p.cachedSecret.Some? ==> p.cachedSecret == Some(secret))
  }

  lemma StepKeepsSecret(p: Panel, c: Command, secret: string)
    requires HasSecret(p, secret) && c != CliReset
    ensures HasSecret(Step(p, c), secret)
  {
    hide PatchAllowed, GuardPasses, CallbackResult, SignInPossible, TelegramClient, PatchedTelegram, CredsChanged,
         Truthy, Cleared, Trimmed, Or;
  }

  /**
   * Sessions survive restarts and settings: short of a reset the account keeps its secret, and
   * every request gets that one, or none while the process has to read it and cannot.
   */
  lemma {:induction false} SessionSecretStays(p: Panel, commands: seq<Command>, secret: string, random: string,
                                              readable: bool)
    requires HasSecret(p, secret) && CliReset !in commands
    ensures var after := Run(p, commands);
            && HasSecret(after, secret)
            && SessionSecret(after, random, readable).0
               == if after.cachedSecret.Some? || readable then Some(secret) else None
  {
    hide Step;
    if commands != [] {
      var n := |commands| - 1;
      assert commands[n] in commands;
      SessionSecretStays(p, commands[..n], secret, random, readable);
      StepKeepsSecret(Run(p, commands[..n]), commands[n], secret);
    }
  }

  // ---------------------------------------------------------------- what the guard does not see

  /** Some browser that shows the panel gets in with some registered key. */
  ghost predicate PasskeyLoginWorks(row: Row, passkeys: Passkeys) {
    exists uuid: string, origin: string :: PasskeyLoginResult(Some(row), passkeys, uuid, origin, true) == Done
  }

  /** Some Telegram account gets in: the round trip starts, and ends with a login. */
  ghost predicate TelegramLoginWorks(row: Row, readable: bool) {
    var flow := StartedFlow(Some(row), Login, readable, None);
    exists identity: Identity :: CallbackResult(Some(row), flow, true, readable, Some(identity)).LoggedIn?
  }

  /** Whether the secret of the Telegram client and the one of the sessions decrypt with the key of now. */
  datatype Decrypts = Decrypts(telegram: bool, session: bool)

  /** Some method lets the owner in, and the session it ends with can be signed. */
  ghost predicate OwnerCanSignIn(p: Panel, d: Decrypts)
    requires p.row.Some?
  {
    && (p.row.value.passwordEnabled || PasskeyLoginWorks(p.row.value, p.passkeys)
        || TelegramLoginWorks(p.row.value, d.telegram))
    && forall random: string :: SessionSecret(p, random, d.session).0.Some?
  }

  /** A relying party with an ID, and an origin beyond commas and blanks. */
  predicate RelyingPartySet(row: Row) {
    Truthy(row.rpId) && row.rpOrigin.Some?
    && exists i :: 0 <= i < |row.rpOrigin.value| && row.rpOrigin.value[i] != ',' && !IsSpace(row.rpOrigin.value[i])
  }

  /** Some key was made for the relying party of now. */
  predicate KeyHere(row: Row, passkeys: Passkeys) {
    exists k :: k in passkeys && Some(passkeys[k]) == row.rpId
  }

  /** The process remembers the session secret, or has none to read yet, or can read it. */
  predicate SessionSigned(p: Panel, readable: bool)
    requires p.row.Some?
  {
    p.cachedSecret.Some? || p.row.value.sessionSecret.None? || readable
  }

  /**
   * What the guard promises is true exactly when the session secret is at hand and the password is
   * on, or some key was made for the relying party of now, which is complete, or the secret of the
   * Telegram client still decrypts.
   */
  lemma GuardIsRightIff(p: Panel, d: Decrypts)
    requires p.row.Some? && SignInPossible(p.row.value, |p.passkeys|)
    ensures OwnerCanSignIn(p, d)
            <==> SessionSigned(p, d.session)
                 && (p.row.value.passwordEnabled
                     || (p.row.value.passkeyEnabled && RelyingPartySet(p.row.value)
                         && KeyHere(p.row.value, p.passkeys))
                     || (TelegramUsable(p.row.value.telegram) && d.telegram))
  {
    hide Origins, Truthy, PasskeyLoginWorks, TelegramLoginWorks;
    TelegramWorksIff(p.row.value, d.telegram);
    PasskeyWorksIff(p.row.value, p.passkeys);
    assert SessionSigned(p, d.session) <==> SessionSecret(p, "", d.session).0.Some?;
  }

  lemma TelegramWorksIff(row: Row, readable: bool)
    ensures TelegramLoginWorks(row, readable) <==> TelegramUsable(row.telegram) && readable
  {
    var flow := StartedFlow(Some(row), Login, readable, None);
    if TelegramUsable(row.telegram) && readable {
      var owner := Identity(row.telegram.userId.value, None);
      assert CallbackResult(Some(row), flow, true, readable, Some(owner)).LoggedIn?;
    }
  }

  lemma PasskeyWorksIff(row: Row, passkeys: Passkeys)
    ensures PasskeyLoginWorks(row, passkeys)
            <==> row.passkeyEnabled && RelyingPartySet(row) && KeyHere(row, passkeys)
  {
    hide Origins;
    if row.rpOrigin.Some? {
      var list := row.rpOrigin.value;
      SomeOriginIff(list);
      if row.passkeyEnabled && RelyingPartySet(row) && KeyHere(row, passkeys) {
        var uuid :| uuid in passkeys && Some(passkeys[uuid]) == row.rpId;
        var origin := Origins(list)[0];
        assert PasskeyLoginResult(Some(row), passkeys, uuid, origin, true) == Done;
      }
    }
  }

  lemma SomeOriginIff(rpOrigin: string)
    ensures |Origins(rpOrigin)| > 0
            <==> exists i :: 0 <= i < |rpOrigin| && rpOrigin[i] != ',' && !IsSpace(rpOrigin[i])
  {
    SomeNonEmptyIff(SplitAt(rpOrigin, ','));
    SomePartNotBlankIff(rpOrigin, ',');
    assert (exists i :: 0 <= i < |rpOrigin| && rpOrigin[i] != ',' && !IsSpace(rpOrigin[i]))
           <==> !BlankBut(rpOrigin, ',');
  }

  lemma {:induction false} SomeNonEmptyIff(parts: seq<string>)
    ensures |NonEmpty(parts)| > 0 <==> !AllBlank(parts)
  {
    hide Trim;
    if parts != [] {
      var n := |parts| - 1;
      SomeNonEmptyIff(parts[..n]);
      TrimmedAwayIff(parts[n]);
      assert parts == parts[..n] + [parts[n]];
    }
  }

  const NO_CHANGE: Dto := Dto(None, None, None, None, None, None, None, None, None)

  /** Set up, with a relying party, a key for it, and passkeys switched on. */
  method WithPasskey() returns (store: AuthStore)
    ensures fresh(store) && store.Valid() && store.cachedSecret.Some?
    ensures store.row.Some? && store.row.value == NewAdmin("s").(
      passkeyEnabled := true, rpId := Some("panel"), rpOrigin := Some("panel"))
    ensures store.passkeys == map["key" := "panel"]
  {
    hide Trim;
    TrimOfWord();
    store := new AuthStore();
    var done := store.Setup("s");
    done := store.PatchConfig(NO_CHANGE.(rpId := Some("panel"), rpOrigin := Some("panel")));
    done := store.RegisterPasskey("key", true);
    assert store.passkeys == map["key" := "panel"];
    done := store.PatchConfig(NO_CHANGE.(passkeyEnabled := Some(true)));
  }

  /** A run of accepted requests after which the guard is satisfied and nobody can sign in. */
  method ClearingTheRelyingPartyLocksOut() returns (store: AuthStore)
    ensures fresh(store) && store.Valid() && store.row.Some?
    ensures forall d :: !OwnerCanSignIn(store.State(), d)
  {
    hide Trim, OwnerCanSignIn;
    TrimOfWord();
    store := WithPasskey();
    var done := store.PatchConfig(NO_CHANGE.(passwordEnabled := Some(false), rpId := Some("")));
    assert |store.passkeys| == 1 && done.Done? && store.row.value.rpId == None;
    forall d ensures !OwnerCanSignIn(store.State(), d) {
      GuardIsRightIff(store.State(), d);
    }
  }

  /** The same when the relying party moves: the only key was made for the old one. */
  method MovingTheRelyingPartyLocksOut() returns (store: AuthStore)
    ensures fresh(store) && store.Valid() && store.row.Some? && RelyingPartySet(store.row.value)
    ensures forall d :: !OwnerCanSignIn(store.State(), d)
  {
    hide Trim, OwnerCanSignIn;
    TrimOfWord();
    store := WithPasskey();
    var done := store.PatchConfig(NO_CHANGE.(passwordEnabled := Some(false), rpId := Some("other")));
    assert |store.passkeys| == 1 && done.Done? && store.row.value.rpId == Some("other");
    assert store.row.value.rpOrigin.value[0] != ',' && !IsSpace(store.row.value.rpOrigin.value[0]);
    forall d ensures !OwnerCanSignIn(store.State(), d) {
      GuardIsRightIff(store.State(), d);
    }
  }

  /** A run of accepted requests that leaves Telegram alone, which then depends on both secrets. */
  method UnreadableSecretLocksOut() returns (store: AuthStore)
    ensures fresh(store) && store.Valid() && store.row.Some?
    ensures forall d :: OwnerCanSignIn(store.State(), d) <==> d.telegram && d.session
  {
    hide Trim, OwnerCanSignIn;
    store := new AuthStore();
    var done := store.Setup("s");
    done := store.PatchConfig(NO_CHANGE.(
      telegramClientId := Some("1"), telegramClientSecret := Some("secret"), telegramOrigin := Some("https://panel")));
    assert done.Done? && store.row.value.telegram.secret == Some("secret");
    var flow := store.StartTelegram(Link, true, None);
    assert flow.Some?;
    var linked := store.HandleCallback(flow, true, true, Some(Identity("7", None)));
    assert linked == Linked && TelegramUsable(store.row.value.telegram);
    done := store.PatchConfig(NO_CHANGE.(passwordEnabled := Some(false)));
    assert done.Done? && !store.row.value.passwordEnabled && !store.row.value.passkeyEnabled;
    store.Restart();
    forall d ensures OwnerCanSignIn(store.State(), d) <==> d.telegram && d.session {
      GuardIsRightIff(store.State(), d);
    }
  }

  /** After a restart with another encryption key the password alone does not help either. */
  method ChangedKeyLocksOut() returns (store: AuthStore)
    ensures fresh(store) && store.Valid() && store.row.Some? && store.row.value.passwordEnabled
    ensures forall d :: OwnerCanSignIn(store.State(), d) <==> d.session
  {
    hide OwnerCanSignIn;
    store := new AuthStore();
    var done := store.Setup("s");
    store.Restart();
    forall d ensures OwnerCanSignIn(store.State(), d) <==> d.session {
      GuardIsRightIff(store.State(), d);
    }
  }

  lemma TrimOfWord()
    ensures Trim("panel") == "panel" && Trim("other") == "other" && Trim("") == ""
  {
  }
}
