/** Order statuses in the admin panel (admin_statuses.py): which statuses
    are protected from deletion, editing a status's name or one of its
    flags, and the value each flag's toggle button posts. */
module Statuses {
  import opened Wrappers
  import opened Text
  import Records

  /** Statuses the system needs to create orders: id 1 is "Новий". */
  const ProtectedStatusIds: seq<nat> := [1]

  /** A row of the statuses table: its boolean columns (notify_customer,
      visible_to_*, requires_kitchen_notify, is_completed_status,
      is_cancelled_status) by column name. */
  datatype StatusRow = StatusRow(id: nat, name: string, flags: map<string, bool>)

  /** A flag's value; an absent column reads as False. */
  function Flag(r: StatusRow, field: string): bool
  {
    if field in r.flags then r.flags[field] else false
  }

  /** The status as the order rules see it. */
  function AsStatus(r: StatusRow): (s: Records.Status)
    ensures s.id == r.id && s.name == r.name
    ensures s.isCompletedStatus == Flag(r, "is_completed_status")
    ensures s.isCancelledStatus == Flag(r, "is_cancelled_status")
    ensures s.requiresKitchenNotify == Flag(r, "requires_kitchen_notify")
  {
    Records.Status(r.id, r.name, Flag(r, "is_completed_status"), Flag(r, "is_cancelled_status"),
                   Flag(r, "requires_kitchen_notify"))
  }

  /** The protection rule: a system status or a final one. */
  predicate IsProtected(r: StatusRow)
  {
    r.id in ProtectedStatusIds || Flag(r, "is_completed_status") || Flag(r, "is_cancelled_status")
  }

  /** Protected means exactly: status 1, or a status that closes an order
      (completed or cancelled) for the order rules. */
  lemma ProtectedMeansSystemOrClosed(r: StatusRow)
    ensures IsProtected(r) <==> r.id == 1 || AsStatus(r).IsClosed()
  {
  }

  /** `value.lower() == 'true'`: the posted text spells true in any
      mixture of cases. */
  predicate PostedTrue(value: string)
  {
    Lower(value) == "true"
  }

  lemma PostedTrueSpelling(value: string)
    ensures PostedTrue(value) <==>
      (&& |value| == 4
       && (value[0] == 't' || value[0] == 'T') && (value[1] == 'r' || value[1] == 'R')
       && (value[2] == 'u' || value[2] == 'U') && (value[3] == 'e' || value[3] == 'E'))
  {
    if |value| == 4 {
      var l := Lower(value);
      assert l[0] == LowerChar(value[0]) && l[1] == LowerChar(value[1]);
      assert l[2] == LowerChar(value[2]) && l[3] == LowerChar(value[3]);
      if PostedTrue(value) {
        assert l == "true";
        assert l[0] == 't' && l[1] == 'r' && l[2] == 'u' && l[3] == 'e';
      }
    }
  }

  /** toggle_btn: the value a flag's button posts, the negation of the
      flag as shown. */
  function ToggleValue(val: bool): (v: string)
    ensures PostedTrue(v) <==> !val
  {
    var v := if val then "false" else "true";
    assert Lower(v) == v;
    v
  }

  datatype EditError = ValueMissing   // a field posted without a value fails on None.lower()

  /** edit_status: with a name and no field, rename; with a field, set it
      to whether the value reads true; an unknown status id changes
      nothing. */
  function EditStatusSpec(rows: map<nat, StatusRow>, id: nat, name: Option<string>, field: Option<string>,
                          value: Option<string>): Result<map<nat, StatusRow>, EditError>
  {
    if id !in rows then Ok(rows)
    else
      var r := rows[id];
      var hasName := name.Some? && name.value != "";
      var hasField := field.Some? && field.value != "";
      if hasName && !hasField then Ok(rows[id := r.(name := name.value)])
      else if hasField then
        if value.None? then Err(ValueMissing)
        else Ok(rows[id := r.(flags := r.flags[field.value := PostedTrue(value.value)])])
      else Ok(rows)
  }

  /** Editing touches the one row named, and within it either the name or
      the one field posted; a field edit makes that flag exactly whether
      the value reads true. */
  lemma EditStatusEffect(rows: map<nat, StatusRow>, id: nat, name: Option<string>, field: Option<string>,
                         value: Option<string>)
    requires id in rows
    ensures var r := EditStatusSpec(rows, id, name, field, value);
      && (r.Err? <==> field.Some? && field.value != "" && value.None?)
      && (r.Ok? ==>
            && r.value.Keys == rows.Keys
            && (forall k | k in rows && k != id :: r.value[k] == rows[k])
            && r.value[id].id == rows[id].id)
      && (field.Some? && field.value != "" && value.Some? ==>
            && r.value[id].name == rows[id].name
            && Flag(r.value[id], field.value) == PostedTrue(value.value)
            && forall f | f != field.value :: Flag(r.value[id], f) == Flag(rows[id], f))
      && ((field.None? || field.value == "") && name.Some? && name.value != "" ==>
            r.value[id] == rows[id].(name := name.value))
      && ((field.None? || field.value == "") && (name.None? || name.value == "") ==> r == Ok(rows))
  {
  }

  /** Pressing a toggle flips exactly that flag. */
  lemma ToggleFlips(rows: map<nat, StatusRow>, id: nat, field: string)
    requires id in rows && field != ""
    ensures var r := EditStatusSpec(rows, id, None, Some(field), Some(ToggleValue(Flag(rows[id], field))));
      && r.Ok?
      && Flag(r.value[id], field) == !Flag(rows[id], field)
      && forall f | f != field :: Flag(r.value[id], f) == Flag(rows[id], f)
  {
    EditStatusEffect(rows, id, None, Some(field), Some(ToggleValue(Flag(rows[id], field))));
  }

  datatype DeleteError = Protected | InUse

  /** delete_status: an unknown id is ignored; a protected status is
      refused; a status some order still uses is refused by the database;
      anything else is removed. */
  function DeleteStatusSpec(rows: map<nat, StatusRow>, id: nat, inUse: set<nat>): (map<nat, StatusRow>, Option<DeleteError>)
  {
    if id !in rows then (rows, None)
    else if IsProtected(rows[id]) then (rows, Some(Protected))
    else if id in inUse then (rows, Some(InUse))
    else (rows - {id}, None)
  }

  /** A status disappears exactly when it exists, is not protected and no
      order uses it; every other row stays as it was. Closed statuses and
      status 1 can never be deleted. */
  lemma DeleteStatusGuards(rows: map<nat, StatusRow>, id: nat, inUse: set<nat>)
    ensures var (r, e) := DeleteStatusSpec(rows, id, inUse);
      && (id !in r <==> id !in rows || (!IsProtected(rows[id]) && id !in inUse))
      && (forall k | k in rows && k != id :: k in r && r[k] == rows[k])
      && (id in rows && IsProtected(rows[id]) ==> r == rows && e == Some(Protected))
      && (id in rows && (rows[id].id == 1 || AsStatus(rows[id]).IsClosed()) ==> id in r)
      && (e.Some? ==> r == rows)
  {
    if id in rows {
      ProtectedMeansSystemOrClosed(rows[id]);
    }
  }

  /** The statuses table as the admin panel edits it. */
  class StatusTable {
    var rows: map<nat, StatusRow>

    constructor (rows0: map<nat, StatusRow>)
      ensures rows == rows0
    {
      rows := rows0;
    }

    /** edit_status on the live table. */
    method EditStatus(id: nat, name: Option<string>, field: Option<string>, value: Option<string>)
      returns (err: Option<EditError>)
      modifies this
      ensures match EditStatusSpec(old(rows), id, name, field, value)
        case Ok(r) => err.None? && rows == r
        case Err(e) => err == Some(e) && rows == old(rows)
    {
      if id !in rows {
        return None;
      }
      var hasName := name.Some? && name.value != "";
      var hasField := field.Some? && field.value != "";
      if hasName && !hasField {
        rows := rows[id := rows[id].(name := name.value)];
      } else if hasField {
        if value.None? {
          return Some(ValueMissing);
        }
        var r := rows[id];
        rows := rows[id := r.(flags := r.flags[field.value := Lower(value.value) == "true"])];
      }
      err := None;
    }

    /** delete_status on the live table. */
    method DeleteStatus(id: nat, inUse: set<nat>) returns (err: Option<DeleteError>)
      modifies this
      ensures (rows, err) == DeleteStatusSpec(old(rows), id, inUse)
    {
      if id !in rows {
        return None;
      }
      if IsProtected(rows[id]) {
        return Some(Protected);
      }
      if id in inUse {
        return Some(InUse);
      }
      rows := rows - {id};
      err := None;
    }
  }
}
