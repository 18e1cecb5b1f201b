/**
 `planUserUpdate`: decides whether one configuration may replace another inside a
 running process, which users it touches, and which rule objects it may keep.
 */
module Planner {
  import opened Basics

  datatype Json =
    | Null
    | Bool(b: bool)
    | Num(n: real)
    | Str(s: string)
    | Arr(items: seq<Json>)
    | Obj(fields: map<string, Json>)

  type Row = map<string, Json>

  // ---------------------------------------------------------------- rows and tags

  function Rows(row: Row, key: string): seq<Json> {
    if key in row && row[key].Arr? then row[key].items else []
  }

  function Nested(row: Row, key: string): Row {
    if key in row && row[key].Obj? then row[key].fields else map[]
  }

  function Lookup<V>(m: map<string, V>, key: string): Option<V> {
    if key in m then Some(m[key]) else None
  }

  function Text(row: Row, key: string): string {
    if key in row && row[key].Str? then row[key].s else ""
  }

  predicate Absent(row: Row, key: string) {
    key !in row || row[key].Null?
  }

  predicate AllObjects(items: seq<Json>) {
    forall i | 0 <= i < |items| :: items[i].Obj?
  }

  function Objects(items: seq<Json>): seq<Row>
    requires AllObjects(items)
  {
    seq(|items|, i requires 0 <= i < |items| => items[i].fields)
  }

  /** The tagged rows of an array, or None when a row has no tag or repeats one. */
  function NamedFrom(items: seq<Json>): Option<map<string, Row>> {
    if items == [] then Some(map[]) else
    var earlier := NamedFrom(items[..|items| - 1]);
    var last := items[|items| - 1];
    if earlier.None? || !last.Obj? then None else
    var tag := Text(last.fields, "tag");
    if tag == "" || tag in earlier.value then None
    else Some(earlier.value[tag := last.fields])
  }

  function NamedRows(row: Row, key: string): Option<map<string, Row>> {
    if Absent(row, key) then Some(map[])
    else if row[key].Arr? then NamedFrom(row[key].items)
    else None
  }

  lemma {:induction false} NamedFromHolds(items: seq<Json>, i: nat)
    requires NamedFrom(items).Some? && i < |items|
    ensures items[i].Obj? && Text(items[i].fields, "tag") in NamedFrom(items).value
    ensures NamedFrom(items).value[Text(items[i].fields, "tag")] == items[i].fields
  {
    if i < |items| - 1 {
      NamedFromHolds(items[..|items| - 1], i);
    }
  }

  predicate References(value: Json, tags: set<string>) {
    match value
    case Obj(fields) =>
      exists key | key in fields ::
        || (key in {"outbound", "detour", "download_detour"} && fields[key].Str? && fields[key].s in tags)
        || References(fields[key], tags)
    case Arr(items) => exists i | 0 <= i < |items| :: References(items[i], tags)
    case _ => false
  }

  /** Rows are read exactly when each is an object with a tag of its own. */
  lemma {:induction false} NamedFromExactly(items: seq<Json>)
    ensures NamedFrom(items).Some? <==>
              && (forall i | 0 <= i < |items| ::
                    items[i].Obj? && "tag" in items[i].fields && items[i].fields["tag"].Str?
                    && items[i].fields["tag"].s != "")
              && (forall i, j | 0 <= i < j < |items| && items[i].Obj? && items[j].Obj? ::
                    Text(items[i].fields, "tag") != Text(items[j].fields, "tag"))
    ensures NamedFrom(items).Some? ==> forall tag ::
              tag in NamedFrom(items).value <==> exists i | 0 <= i < |items| ::
                  items[i].Obj? && Text(items[i].fields, "tag") == tag
  {
    if items != [] {
      var init, last := items[..|items| - 1], items[|items| - 1];
      NamedFromExactly(init);
      assert forall i | 0 <= i < |init| :: init[i] == items[i];
      if NamedFrom(items).Some? {
        forall tag | tag in NamedFrom(items).value
          ensures exists i | 0 <= i < |items| :: items[i].Obj? && Text(items[i].fields, "tag") == tag
        {
          if tag == Text(last.fields, "tag") {
            assert items[|items| - 1] == last;
          } else {
            var i :| 0 <= i < |init| && init[i].Obj? && Text(init[i].fields, "tag") == tag;
            assert items[i] == init[i];
          }
        }
      }
    }
  }

  /** A missing or null list has no rows, and anything but a list is an error. */
  lemma NamedRowsExactly(row: Row, key: string)
    ensures key !in row || row[key] == Null ==> NamedRows(row, key) == Some(map[])
    ensures key in row && row[key] != Null ==>
              NamedRows(row, key) == if row[key].Arr? then NamedFrom(row[key].items) else None
  {
  }

  /** To mention one of the tags is to mention some tags. */
  lemma {:induction false} ReferencesMore(value: Json, tag: string, tags: set<string>)
    requires tag in tags && References(value, {tag})
    ensures References(value, tags)
  {
    match value {
      case Obj(fields) =>
        var key :| key in fields
          && (|| (key in {"outbound", "detour", "download_detour"} && fields[key].Str? && fields[key].s in {tag})
              || References(fields[key], {tag}));
        if References(fields[key], {tag}) { ReferencesMore(fields[key], tag, tags); }
      case Arr(items) =>
        var i :| 0 <= i < |items| && References(items[i], {tag});
        ReferencesMore(items[i], tag, tags);
      case _ =>
    }
  }

  lemma {:induction false} ReferencesSome(value: Json, tags: set<string>) returns (tag: string)
    requires References(value, tags)
    ensures tag in tags && References(value, {tag})
  {
    match value {
      case Obj(fields) =>
        var key :| key in fields
          && (|| (key in {"outbound", "detour", "download_detour"} && fields[key].Str? && fields[key].s in tags)
              || References(fields[key], tags));
        if References(fields[key], tags) { tag := ReferencesSome(fields[key], tags); } else { tag := fields[key].s; }
      case Arr(items) =>
        var i :| 0 <= i < |items| && References(items[i], tags);
        tag := ReferencesSome(items[i], tags);
    }
  }

  /** Tags are mentioned one by one, and a field that routes mentions its own. */
  lemma ReferencesExactly(value: Json, tags: set<string>)
    ensures References(value, tags) <==> exists tag | tag in tags :: References(value, {tag})
    ensures forall key, tag | value.Obj? && key in {"outbound", "detour", "download_detour"}
                              && key in value.fields && value.fields[key] == Str(tag) :: References(value, {tag})
  {
    if References(value, tags) { var tag := ReferencesSome(value, tags); }
    if tag :| tag in tags && References(value, {tag}) { ReferencesMore(value, tag, tags); }
  }

  // ---------------------------------------------------------------- users

  function Strings(items: seq<Json>): Option<seq<string>> {
    if items == [] then Some([])
    else if !items[0].Str? then None
    else match Strings(items[1..])
      case None => None
      case Some(rest) => Some([items[0].s] + rest)
  }

  function UserNames(row: Row): Option<seq<string>> {
    if "auth_user" !in row then None
    else match row["auth_user"]
      case Str(s) => Some([s])
      case Arr(items) =>
        var names := Strings(items);
        if names == Some([]) then None else names
      case _ => None
  }

  const ALLOWED_KEYS: set<string> := {
    "type", "auth_user", "action", "outbound", "inbound", "network", "source_ip_cidr", "ip_cidr",
    "source_port", "source_port_range", "port", "port_range", "domain", "domain_suffix",
    "domain_keyword", "domain_regex", "method", "no_drop"
  }

  /** A resource-free user rule: it names users, and every other field is a plain condition or verdict. */
  predicate Plain(row: Row) {
    && UserNames(row).Some?
    && row.Keys <= ALLOWED_KEYS
    && ("type" in row ==> row["type"] == Str("default") || row["type"] == Str(""))
    && ("action" in row ==> row["action"] == Str("route") || row["action"] == Str("reject") || row["action"] == Str(""))
  }

  predicate Dynamic(row: Row, known: set<string>, blocked: set<string>) {
    && Plain(row)
    && (forall i | 0 <= i < |UserNames(row).value| ::
          UserNames(row).value[i] != "" && UserNames(row).value[i] !in blocked)
    && (exists i | 0 <= i < |UserNames(row).value| :: UserNames(row).value[i] in known)
  }

  /** What makes a rule managed, field by field. */
  lemma DynamicExactly(row: Row, known: set<string>, blocked: set<string>)
    ensures Dynamic(row, known, blocked) <==>
              && "auth_user" in row
              && (row["auth_user"].Str? || (row["auth_user"].Arr? && row["auth_user"].items != []
                                            && forall i | 0 <= i < |row["auth_user"].items| ::
                                                row["auth_user"].items[i].Str?))
              && (forall name | Named(row["auth_user"], name) :: name != "" && name !in blocked)
              && (exists name | name in known :: Named(row["auth_user"], name))
              && (forall key | key in row ::
                    key in {"type", "auth_user", "action", "outbound", "inbound", "network", "source_ip_cidr", "ip_cidr",
                            "source_port", "source_port_range", "port", "port_range", "domain", "domain_suffix",
                            "domain_keyword", "domain_regex", "method", "no_drop"})
              && ("type" !in row || row["type"] == Str("default") || row["type"] == Str(""))
              && ("action" !in row || row["action"] == Str("route") || row["action"] == Str("reject")
                  || row["action"] == Str(""))
  {
    if "auth_user" in row {
      if row["auth_user"].Arr? { StringsExactly(row["auth_user"].items); }
      if UserNames(row).Some? { NamedExactly(row); }
    }
  }

  /** The name is the value, or one of the values of an array. */
  ghost predicate Named(value: Json, name: string) {
    value == Str(name) || (value.Arr? && Str(name) in value.items)
  }

  lemma {:induction false} StringsExactly(items: seq<Json>)
    ensures Strings(items).Some? <==> forall i | 0 <= i < |items| :: items[i].Str?
    ensures Strings(items).Some? ==> |Strings(items).value| == |items|
                                     && forall i | 0 <= i < |items| :: items[i] == Str(Strings(items).value[i])
  {
    if items != [] {
      StringsExactly(items[1..]);
      assert forall i | 0 < i < |items| :: items[i] == items[1..][i - 1];
      if forall i | 0 <= i < |items| :: items[i].Str? {
        assert forall i | 0 <= i < |items[1..]| :: items[1..][i] == items[i + 1] && items[1..][i].Str?;
      }
    }
  }

  lemma NamedExactly(row: Row)
    requires UserNames(row).Some?
    ensures forall name :: Named(row["auth_user"], name) <==> name in UserNames(row).value
    ensures forall i | 0 <= i < |UserNames(row).value| :: Named(row["auth_user"], UserNames(row).value[i])
  {
    if row["auth_user"].Arr? {
      var items := row["auth_user"].items;
      StringsExactly(items);
      forall name ensures Str(name) in items <==> name in UserNames(row).value {
        if Str(name) in items {
          var i :| 0 <= i < |items| && items[i] == Str(name);
          assert UserNames(row).value[i] == name;
        }
        if name in UserNames(row).value {
          var i :| 0 <= i < |items| && UserNames(row).value[i] == name;
          assert items[i] == Str(name);
        }
      }
    }
  }

  function Normalized(row: Row): Row {
    row - {"auth_user"}
  }

  function UserName(kind: Option<Json>, user: Row): string {
    Text(user, if kind == Some(Str("socks")) then "username" else "name")
  }

  /** `canon` is the UUID parser with its name-based fallback. */
  predicate UserOk(kind: Option<Json>, user: Row) {
    && UserName(kind, user) != ""
    && (kind == Some(Str("socks")) ==>
          0 < |Text(user, "password")| <= 255 && |Text(user, "username")| <= 255)
    && (kind != Some(Str("socks")) ==> Text(user, "uuid") != "")
    && (kind == Some(Str("vmess")) && "alterId" in user ==> user["alterId"] == Num(0.0))
  }

  /** What a user of each kind of inbound must bring. */
  lemma UserOkExactly(user: Row)
    ensures UserOk(Some(Str("socks")), user) <==>
              && "username" in user && user["username"].Str? && 0 < |user["username"].s| <= 255
              && "password" in user && user["password"].Str? && 0 < |user["password"].s| <= 255
    ensures UserOk(Some(Str("vless")), user) <==>
              && "name" in user && user["name"].Str? && user["name"].s != ""
              && "uuid" in user && user["uuid"].Str? && user["uuid"].s != ""
    ensures UserOk(Some(Str("vmess")), user) <==>
              && "name" in user && user["name"].Str? && user["name"].s != ""
              && "uuid" in user && user["uuid"].Str? && user["uuid"].s != ""
              && ("alterId" !in user || user["alterId"] == Num(0.0))
  {
  }

  function NameKey(kind: Option<Json>): Json -> string {
    (user: Json) => if user.Obj? then UserName(kind, user.fields) else ""
  }

  function IdKey(canon: string -> string): Json -> string {
    (user: Json) => if user.Obj? then canon(Text(user.fields, "uuid")) else ""
  }

  predicate Distinct(users: seq<Json>, key: Json -> string) {
    forall i, j | 0 <= i < j < |users| :: key(users[i]) != key(users[j])
  }

  function Keys(users: seq<Json>, key: Json -> string): set<string> {
    set i | 0 <= i < |users| :: key(users[i])
  }

  lemma DistinctStep(users: seq<Json>, i: nat, key: Json -> string)
    requires i < |users| && Distinct(users[..i], key)
    ensures Distinct(users[..i + 1], key) <==> key(users[i]) !in Keys(users[..i], key)
    ensures Keys(users[..i + 1], key) == Keys(users[..i], key) + {key(users[i])}
  {
    var us, more := users[..i], users[..i + 1];
    assert more == us + [users[i]];
    forall k | 0 <= k < i ensures key(more[k]) in Keys(us, key) { assert more[k] == us[k]; }
    if key(users[i]) in Keys(us, key) {
      var k :| 0 <= k < |us| && key(us[k]) == key(users[i]);
      assert more[k] == us[k] && more[i] == users[i];
    }
    forall n ensures n in Keys(more, key) <==> n in Keys(us, key) + {key(users[i])} {
      if n in Keys(us, key) {
        var k :| 0 <= k < |us| && key(us[k]) == n;
        assert more[k] == us[k];
      }
      assert more[i] == users[i];
    }
  }

  predicate EachOk(kind: Option<Json>, users: seq<Json>) {
    forall i | 0 <= i < |users| :: users[i].Obj? && UserOk(kind, users[i].fields)
  }

  predicate UsersOk(kind: Option<Json>, users: seq<Json>, canon: string -> string) {
    && EachOk(kind, users)
    && Distinct(users, NameKey(kind))
    && (kind != Some(Str("socks")) ==> Distinct(users, IdKey(canon)))
  }

  /** The checks one user must pass, given the names and identifiers before it. */
  predicate Fits(kind: Option<Json>, user: Json, seen: set<string>, ids: set<string>, canon: string -> string) {
    && user.Obj? && UserOk(kind, user.fields)
    && NameKey(kind)(user) !in seen
    && (kind != Some(Str("socks")) ==> IdKey(canon)(user) !in ids)
  }

  lemma UsersOkStep(kind: Option<Json>, users: seq<Json>, i: nat, canon: string -> string)
    requires i < |users| && UsersOk(kind, users[..i], canon)
    ensures UsersOk(kind, users[..i + 1], canon)
            <==> Fits(kind, users[i], Keys(users[..i], NameKey(kind)), Keys(users[..i], IdKey(canon)), canon)
  {
    hide Distinct, Keys, UserOk, NameKey, IdKey;
    DistinctStep(users, i, NameKey(kind));
    if kind != Some(Str("socks")) { DistinctStep(users, i, IdKey(canon)); }
    assert users[..i + 1] == users[..i] + [users[i]];
  }

  lemma UsersOkPrefix(kind: Option<Json>, users: seq<Json>, i: nat, canon: string -> string)
    requires i <= |users| && UsersOk(kind, users, canon)
    ensures UsersOk(kind, users[..i], canon)
  {
  }

  /** `validateUsers`: the authentication names of an inbound, or an error. */
  method ValidateUsers(row: Row, canon: string -> string) returns (names: Option<set<string>>)
    ensures names.Some? <==> Valid(row, canon)
    ensures names.Some? ==> names.value == InboundNames(row)
  {
    if !Absent(row, "users") && !row["users"].Arr? { return None; }
    var users, kind := Rows(row, "users"), Lookup(row, "type");
    var seen: set<string>, ids: set<string> := {}, {};
    for i := 0 to |users|
      invariant UsersOk(kind, users[..i], canon)
      invariant seen == Keys(users[..i], NameKey(kind))
      invariant kind != Some(Str("socks")) ==> ids == Keys(users[..i], IdKey(canon))
    {
      hide Distinct, Keys, UserOk, NameKey, IdKey, EachOk;
      UsersOkStep(kind, users, i, canon);
      if !Fits(kind, users[i], seen, ids, canon) {
        if UsersOk(kind, users, canon) { UsersOkPrefix(kind, users, i + 1, canon); }
        return None;
      }
      DistinctStep(users, i, NameKey(kind));
      if kind != Some(Str("socks")) { DistinctStep(users, i, IdKey(canon)); }
      seen, ids := seen + {NameKey(kind)(users[i])}, ids + {IdKey(canon)(users[i])};
    }
    assert users[..|users|] == users;
    names := Some(seen);
  }

  predicate Valid(row: Row, canon: string -> string) {
    && (Absent(row, "users") || row["users"].Arr?)
    && UsersOk(Lookup(row, "type"), Rows(row, "users"), canon)
  }

  function InboundNames(row: Row): set<string> {
    Keys(Rows(row, "users"), NameKey(Lookup(row, "type")))
  }
}
