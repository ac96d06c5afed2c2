/** The `icons` table of server/controllers/iconController.js.  Creation
    fills in a default color, size and style for falsy request values; the
    update handler writes whatever it is given. */
module Icons {
  import opened Base
  import Table

  /** A row of `icons`; every column but the owner is nullable. */
  datatype Icon = Icon(
    user_id: nat,
    icon_name: Option<string>,
    icon_class: Option<string>,
    color: Option<string>,
    size: Option<string>,
    style: Option<string>,
    created_at: nat)

  /** The body of the 201 answer: the request's fields as they were sent. */
  datatype IconCreated = IconCreated(
    id: nat,
    user_id: nat,
    icon_name: Input<string>,
    icon_class: Input<string>,
    color: Input<string>,
    size: Input<string>,
    style: Input<string>)

  const DefaultColor := "#000000"
  const DefaultSize := "medium"
  const DefaultStyle := "solid"

  /** The row createIcon inserts: defaults for a falsy color, size or style. */
  function NewIcon(user_id: nat, icon_name: Input<string>, icon_class: Input<string>,
                   color: Input<string>, size: Input<string>, style: Input<string>, stamp: nat): (v: Icon)
    ensures v.color == Some(if Truthy(color) then color.value else DefaultColor)
    ensures v.size == Some(if Truthy(size) then size.value else DefaultSize)
    ensures v.style == Some(if Truthy(style) then style.value else DefaultStyle)
    ensures v.icon_name == Nullish(icon_name) && v.icon_class == Nullish(icon_class)
    ensures v.user_id == user_id && v.created_at == stamp
  {
    Icon(user_id, Nullish(icon_name), Nullish(icon_class),
         Some(OrElse(color, DefaultColor)), Some(OrElse(size, DefaultSize)), Some(OrElse(style, DefaultStyle)),
         stamp)
  }

  /** The owner column, which the per-user listing filters on. */
  function Owner(icon: Icon): nat {
    icon.user_id
  }

  /** The ORDER BY key. */
  function CreatedAt(icon: Icon): nat {
    icon.created_at
  }

  class IconTable {
    var rows: map<nat, Icon>
    var nextId: nat
    var clock: nat

    ghost predicate Valid()
      reads this
    {
      1 <= nextId &&
      forall id :: id in rows ==> 1 <= id < nextId && rows[id].created_at <= clock
    }

    constructor ()
      ensures Valid() && rows == map[] && nextId == 1 && clock == 0
    {
      rows, nextId, clock := map[], 1, 0;
    }

    /** createIcon: store the defaulted row under a fresh id; echo the request. */
    method CreateIcon(user_id: nat, icon_name: Input<string>, icon_class: Input<string>,
                      color: Input<string>, size: Input<string>, style: Input<string>, elapsed: nat)
      returns (r: IconCreated)
      requires Valid()
      modifies this
      ensures Valid()
      ensures r.id !in old(rows) && r.id == old(nextId) && clock == old(clock) + elapsed
      ensures rows == old(rows)[r.id := NewIcon(user_id, icon_name, icon_class, color, size, style, clock)]
      ensures r == IconCreated(r.id, user_id, icon_name, icon_class, color, size, style)
    {
      var id := nextId;
      var icon := NewIcon(user_id, icon_name, icon_class, color, size, style, clock + elapsed);
      rows := rows[id := icon];
      clock := clock + elapsed;
      nextId := nextId + 1;
      r := IconCreated(id, user_id, icon_name, icon_class, color, size, style);
    }

    /** updateIcon: overwrite the five mutable columns as given, no defaults. */
    method UpdateIcon(id: nat, icon_name: Input<string>, icon_class: Input<string>,
                      color: Input<string>, size: Input<string>, style: Input<string>)
      returns (o: Outcome)
      requires Valid()
      modifies this`rows
      ensures Valid()
      ensures o == NotFound <==> id !in old(rows)
      ensures rows == if id in old(rows)
        then old(rows)[id := old(rows)[id].(icon_name := Nullish(icon_name), icon_class := Nullish(icon_class),
                                            color := Nullish(color), size := Nullish(size), style := Nullish(style))]
        else old(rows)
    {
      if id in rows {
        rows := rows[id := rows[id].(icon_name := Nullish(icon_name), icon_class := Nullish(icon_class),
                                     color := Nullish(color), size := Nullish(size), style := Nullish(style))];
        o := Ok;
      } else {
        o := NotFound;
      }
    }

    /** deleteIcon: remove exactly that row. */
    method DeleteIcon(id: nat) returns (o: Outcome)
      requires Valid()
      modifies this`rows
      ensures Valid()
      ensures o == NotFound <==> id !in old(rows)
      ensures rows == old(rows) - {id}
      ensures Table.Find(rows, id) == None
    {
      o := if id in rows then Ok else NotFound;
      rows := rows - {id};
    }
  }
}
