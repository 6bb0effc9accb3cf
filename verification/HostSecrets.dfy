/** What becomes of the secrets that the host delivers through Configure. */
module HostSecrets {
  import opened Basics
  import opened ConfigStore
  import opened Entitlement
  import opened Tokens
  import Simulator

  /** The API a login under this state gets: the shared one, or one made for its configuration. */
  function EntitlementApi(s: State, api: Api): Option<Api> {
    if s.hasApi || NeedsApi(s.live) then Some(api) else None
  }

  /** Configure makes the imported configuration live, and the import has the secrets blanked. So in
      every run, whatever the host delivers, the configuration a login sees has no client secret and
      no API secret: code exchange and refresh are refused as not configured, a gated login finds no
      API, and the simulator asks for credentials. */
  lemma SecretsNeverReachALogin(ops: seq<Op>, cb: Callback, claims: Claims, w: World, req: Simulator.Request, api: Api)
    requires Int64Bodies(ops) && w.cfg == Run(INITIAL, ops).live
    ensures Exchange(cb, w) == Err(FailedPrecondition) && Refresh(claims, w) == Err(FailedPrecondition)
    ensures EntitlementApi(Run(INITIAL, ops), api) == None
    ensures var report := Simulator.Preview(w.cfg, req, Some(api));
            report.BadRequest? || (report.NotOk? && report.reason == "admin_api_required")
  {
    EveryRunIsSound(ops);
  }
}
