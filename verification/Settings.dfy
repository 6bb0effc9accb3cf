/** The plugin configuration as a value. A Go slice is nil (None) or holds elements, possibly
    none; reflect.DeepEqual tells the two apart. */
module Settings {
  import opened Basics
  import opened ProductIds

  datatype RoleMap = RoleMap(productId: string, role: string)

  type Slice<T> = Option<seq<T>>

  function Items<T>(s: Slice<T>): seq<T> { if s.None? then [] else s.value }

  datatype Config = Config(
    databaseUrl: string,
    serverUrl: string,
    clientId: string,
    clientSecret: string,
    displayName: string,
    iconUrlPath: string,
    allowed: Slice<string>,
    adminApiId: string,
    adminApiSecret: string,
    fetchDiscordId: bool,
    discordField: string,
    roleMapping: Slice<RoleMap>,
    linkByEmail: bool)

  const DISCORD_FIELD := "Discord ID"

  /** The zero value. */
  const ZERO := Config("", "", "", "", "", "", None, "", "", false, "", None, false)

  predicate ValidRole(role: string) { role == "admin" || role == "user" }

  /** A mapping entry as ValidateConfig leaves it. */
  predicate ProperEntry(m: RoleMap) {
    Canonical(m.productId) && (m.role == "user" || m.role == "admin")
  }

  predicate ProperMapping(ms: seq<RoleMap>) {
    forall i {:trigger ProperEntry(ms[i])} :: 0 <= i < |ms| ==> ProperEntry(ms[i])
  }
}
