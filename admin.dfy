/**
 * The query construction of the admin endpoints
 * (apps/api/controllers/v1/admin.js): the SET clause of a bonus-policy
 * update with its numbered `$n` placeholders, the guards of a role change,
 * and the filter and LIMIT/OFFSET parameters of the two paginated listings.
 *
 * The database is not modelled: the rows a statement returns are passed in,
 * and SQL text is kept as its structure (which column is bound to which
 * placeholder, which value to which position).
 */
module AdminController {
  import opened Wrappers
  import opened Json
  import Pagination

  /** The policy columns an update may set, in the order they are considered. */
  datatype Column = Amount | CooldownSeconds | IsActive

  function ColumnName(c: Column): string {
    match c
    case Amount => "amount"
    case CooldownSeconds => "cooldown_seconds"
    case IsActive => "is_active"
  }

  /** One `column = $placeholder` item of a SET clause. */
  datatype Assignment = Assignment(column: Column, placeholder: nat)

  /** `UPDATE bonus_policies SET <assignments> WHERE id = $<idPlaceholder>` and its parameters. */
  datatype PolicyUpdate = PolicyUpdate(assignments: seq<Assignment>, idPlaceholder: nat, params: seq<Value>)

  /** `UPDATE users SET role = $1 WHERE id = $2` with parameters `[role, id]`. */
  datatype RoleUpdate = RoleUpdate(role: string, id: string)

  /** A response: an error status with `{ error }`, or a 200 body holding a row. */
  datatype Reply =
    | ErrorReply(status: nat, error: string)
    | PolicyReply(policy: Value)
    | UserReply(user: Value)

  // ---------------------------------------------------------------------
  // updateBonusPolicy

  /** The request-body field for column `c`; `None` when it is `undefined`. */
  function FieldFor(c: Column, amount: Option<Value>, cooldownSeconds: Option<Value>, isActive: Option<Value>): Option<Value> {
    match c
    case Amount => amount
    case CooldownSeconds => cooldownSeconds
    case IsActive => isActive
  }

  function Rank(c: Column): nat {
    match c
    case Amount => 0
    case CooldownSeconds => 1
    case IsActive => 2
  }

  /**
   * The fields an update sets: every supplied one and no other, each with
   * its value, in the fixed order amount, cooldown_seconds, is_active.
   */
  function Supplied(amount: Option<Value>, cooldownSeconds: Option<Value>, isActive: Option<Value>): (r: seq<(Column, Value)>)
    ensures forall i :: 0 <= i < |r| ==> FieldFor(r[i].0, amount, cooldownSeconds, isActive) == Some(r[i].1)
    ensures forall c: Column :: FieldFor(c, amount, cooldownSeconds, isActive).Some? ==>
              (c, FieldFor(c, amount, cooldownSeconds, isActive).value) in r
    ensures forall i, j :: 0 <= i < j < |r| ==> Rank(r[i].0) < Rank(r[j].0)
    ensures r == [] <==> amount.None? && cooldownSeconds.None? && isActive.None?
  {
    var a := if amount.Some? then [(Amount, amount.value)] else [];
    var c := if cooldownSeconds.Some? then [(CooldownSeconds, cooldownSeconds.value)] else [];
    var s := if isActive.Some? then [(IsActive, isActive.value)] else [];
    assert forall x :: x in a + c + s ==> x in a || x in c || x in s;
    a + c + s
  }

  /**
   * The field and parameter collection of `updateBonusPolicy`: each supplied
   * field is pushed with the next placeholder number, its value beside it.
   */
  method CollectPolicyFields(amount: Option<Value>, cooldownSeconds: Option<Value>, isActive: Option<Value>)
    returns (fields: seq<Assignment>, params: seq<Value>, idx: nat)
    ensures var s := Supplied(amount, cooldownSeconds, isActive);
      && |fields| == |params| == |s|
      && (forall i :: 0 <= i < |s| ==> fields[i] == Assignment(s[i].0, i + 1) && params[i] == s[i].1)
      && idx == |s| + 1
  {
    fields, params, idx := [], [], 1;
    if amount.Some? {
      fields := fields + [Assignment(Amount, idx)];
      idx := idx + 1;
      params := params + [amount.value];
    }
    if cooldownSeconds.Some? {
      fields := fields + [Assignment(CooldownSeconds, idx)];
      idx := idx + 1;
      params := params + [cooldownSeconds.value];
    }
    if isActive.Some? {
      fields := fields + [Assignment(IsActive, idx)];
      idx := idx + 1;
      params := params + [isActive.value];
    }
  }

  /**
   * `updateBonusPolicy`: with no field supplied it answers 400 and issues no
   * update; otherwise it issues one whose placeholder `$n` binds the n-th
   * parameter, the id last, and answers 404 when no row matched.
   * `updatedRows` is what the database returns for the issued statement.
   */
  method UpdateBonusPolicy(id: Value, amount: Option<Value>, cooldownSeconds: Option<Value>, isActive: Option<Value>,
                           updatedRows: seq<Value>)
    returns (query: Option<PolicyUpdate>, reply: Reply)
    ensures var s := Supplied(amount, cooldownSeconds, isActive);
      && (query.None? <==> s == [])
      && (query.None? ==> reply == ErrorReply(400, "No fields to update"))
      && (query.Some? ==>
            var q := query.value;
            && |q.assignments| == |s|
            && |q.params| == |s| + 1
            && q.idPlaceholder == |s| + 1
            && q.params[q.idPlaceholder - 1] == id
            && (forall i :: 0 <= i < |s| ==>
                  q.assignments[i].column == s[i].0 && q.assignments[i].placeholder == i + 1
                  && q.params[q.assignments[i].placeholder - 1] == s[i].1)
            && (updatedRows == [] ==> reply == ErrorReply(404, "Policy not found"))
            && (updatedRows != [] ==> reply == PolicyReply(updatedRows[0])))
  {
    var fields, params, idx := CollectPolicyFields(amount, cooldownSeconds, isActive);
    if |fields| == 0 {
      return None, ErrorReply(400, "No fields to update");
    }
    params := params + [id];
    query := Some(PolicyUpdate(fields, idx, params));
    if |updatedRows| == 0 {
      reply := ErrorReply(404, "Policy not found");
    } else {
      reply := PolicyReply(updatedRows[0]);
    }
  }

  // ---------------------------------------------------------------------
  // updateUserRole

  /** `['admin', 'player'].includes(role)`. */
  predicate AllowedRole(role: Option<Value>) {
    role == Some(Str("admin")) || role == Some(Str("player"))
  }

  /**
   * `updateUserRole`: the role is validated first, then a change of one's
   * own role is refused; only then is the update issued, and a missing user
   * answers 404. `updatedRows` is what the database returns for it.
   */
  function UpdateUserRole(id: string, role: Option<Value>, callerId: string, updatedRows: seq<Value>)
    : (r: (Option<RoleUpdate>, Reply))
    ensures !AllowedRole(role) ==> r == (None, ErrorReply(400, "role must be admin or player"))
    ensures AllowedRole(role) && id == callerId ==> r == (None, ErrorReply(400, "Cannot change your own role"))
    ensures r.0.Some? <==> AllowedRole(role) && id != callerId
    ensures r.0.Some? ==> r.0.value.id == id && Some(Str(r.0.value.role)) == role
    ensures r.0.Some? && updatedRows == [] ==> r.1 == ErrorReply(404, "User not found")
    ensures r.0.Some? && updatedRows != [] ==> r.1 == UserReply(updatedRows[0])
  {
    if !AllowedRole(role) then (None, ErrorReply(400, "role must be admin or player"))
    else if id == callerId then (None, ErrorReply(400, "Cannot change your own role"))
    else
      var q := RoleUpdate(role.value.s, id);
      (Some(q), if |updatedRows| == 0 then ErrorReply(404, "User not found") else UserReply(updatedRows[0]))
  }

  // ---------------------------------------------------------------------
  // Paginated listings

  const UsersSearchWhere := "WHERE u.email ILIKE $1 OR u.display_name ILIKE $1"
  const OrdersStatusWhere := "WHERE so.status = $1"

  /**
   * A listing's two statements: the count query runs `where` with
   * `countParams`; the page query runs the same `where` with `dataParams`
   * and binds LIMIT and OFFSET to the two given placeholders.
   */
  datatype ListQuery = ListQuery(
    where: string,
    countParams: seq<Value>,
    dataParams: seq<Value>,
    limitPlaceholder: nat,
    offsetPlaceholder: nat)

  /** The placeholders of a listing bind the filter first, then the limit and the offset of `w`. */
  ghost predicate WellBound(q: ListQuery, w: Pagination.Window) {
    && q.limitPlaceholder == |q.countParams| + 1
    && q.offsetPlaceholder == |q.countParams| + 2
    && |q.dataParams| == |q.countParams| + 2
    && q.dataParams[..|q.countParams|] == q.countParams
    && q.dataParams[q.limitPlaceholder - 1] == Num(w.limit)
    && q.dataParams[q.offsetPlaceholder - 1] == Num(w.offset)
  }

  /**
   * Appends LIMIT and OFFSET after the filter parameters, numbering their
   * placeholders after the filter's.
   */
  method PageQuery(where: string, params: seq<Value>, w: Pagination.Window) returns (q: ListQuery)
    ensures q.where == where && q.countParams == params
    ensures q.dataParams == params + [Num(w.limit), Num(w.offset)]
    ensures WellBound(q, w)
  {
    var dataParams := params + [Num(w.limit), Num(w.offset)];
    q := ListQuery(where, params, dataParams, |params| + 1, |params| + 2);
  }

  /**
   * The statements of `users`: a non-empty search term becomes the one
   * parameter `%term%` of the search clause; otherwise there is no filter.
   */
  method UsersQuery(search: Option<string>, w: Pagination.Window) returns (q: ListQuery)
    ensures search.None? || search.value == "" ==> q.where == "" && q.countParams == []
    ensures search.Some? && search.value != "" ==>
              q.where == UsersSearchWhere && q.countParams == [Str("%" + search.value + "%")]
    ensures q.limitPlaceholder == |q.countParams| + 1 <= 2
    ensures WellBound(q, w)
  {
    var pattern: Option<string> := if search.Some? && search.value != "" then Some("%" + search.value + "%") else None;
    var where := "";
    var params: seq<Value> := [];
    if pattern.Some? {
      params := params + [Str(pattern.value)];
      where := UsersSearchWhere;
    }
    q := PageQuery(where, params, w);
  }

  /**
   * The statements of `sponsorshipOrders`: a non-empty status filters on
   * that status; otherwise there is no filter.
   */
  method SponsorshipOrdersQuery(status: Option<string>, w: Pagination.Window) returns (q: ListQuery)
    ensures status.None? || status.value == "" ==> q.where == "" && q.countParams == []
    ensures status.Some? && status.value != "" ==>
              q.where == OrdersStatusWhere && q.countParams == [Str(status.value)]
    ensures q.limitPlaceholder == |q.countParams| + 1 <= 2
    ensures WellBound(q, w)
  {
    var filter: Option<string> := if status.Some? && status.value != "" then status else None;
    var where := "";
    var params: seq<Value> := [];
    if filter.Some? {
      params := params + [Str(filter.value)];
      where := OrdersStatusWhere;
    }
    q := PageQuery(where, params, w);
  }

  /**
   * `users`: clamps the paging input, builds both statements, and wraps the
   * page's rows with the total the count statement returned.
   */
  method Users(page: Option<int>, limit: Option<int>, search: Option<string>, total: nat, rows: seq<Value>)
    returns (q: ListQuery, body: Pagination.Paginated<Value>)
    ensures search.None? || search.value == "" ==> q.where == "" && q.countParams == []
    ensures search.Some? && search.value != "" ==>
              q.where == UsersSearchWhere && q.countParams == [Str("%" + search.value + "%")]
    ensures var w := Pagination.ParsePagination(page, limit);
      && WellBound(q, w)
      && body.data == rows
      && body.pagination.page == w.page && body.pagination.limit == w.limit
      && body.pagination.total == total
      && body.pagination.totalPages * w.limit >= total
      && (total > 0 ==> (body.pagination.totalPages - 1) * w.limit < total)
      && (total == 0 ==> body.pagination.totalPages == 0)
  {
    var w := Pagination.ParsePagination(page, limit);
    q := UsersQuery(search, w);
    body := Pagination.PaginatedResponse(rows, total, Pagination.PageRequest(w.page, w.limit));
  }

  /** `sponsorshipOrders`, built the same way as `users`. */
  method SponsorshipOrders(page: Option<int>, limit: Option<int>, status: Option<string>, total: nat, rows: seq<Value>)
    returns (q: ListQuery, body: Pagination.Paginated<Value>)
    ensures status.None? || status.value == "" ==> q.where == "" && q.countParams == []
    ensures status.Some? && status.value != "" ==>
              q.where == OrdersStatusWhere && q.countParams == [Str(status.value)]
    ensures var w := Pagination.ParsePagination(page, limit);
      && WellBound(q, w)
      && body.data == rows
      && body.pagination.page == w.page && body.pagination.limit == w.limit
      && body.pagination.total == total
      && body.pagination.totalPages * w.limit >= total
      && (total > 0 ==> (body.pagination.totalPages - 1) * w.limit < total)
      && (total == 0 ==> body.pagination.totalPages == 0)
  {
    var w := Pagination.ParsePagination(page, limit);
    q := SponsorshipOrdersQuery(status, w);
    body := Pagination.PaginatedResponse(rows, total, Pagination.PageRequest(w.page, w.limit));
  }
}
