/** Adding, renaming, deleting and reordering the models of a provider: the personal ids and the saved order. */
module ModelEdits {
  import opened OwnedOrder
  import opened Sequences

  datatype Models = Models(personal: seq<Id>, order: seq<Id>)

  datatype Refusal = AlreadyExists | IsInherited | DoesNotExist

  datatype Edited = Edited(models: Models) | Refused(why: Refusal)

  datatype Edit = Adding(id: Id) | Renaming(current: Id, next: Id) | Deleting(id: Id) | Reordering(ids: seq<Id>)

  function Replace(q: seq<Id>, current: Id, next: Id): (r: seq<Id>)
    ensures |r| == |q| && forall k :: 0 <= k < |q| ==> r[k] == if q[k] == current then next else q[k]
  {
    if q == [] then [] else [if q[0] == current then next else q[0]] + Replace(q[1..], current, next)
  }

  function With(inherited: seq<Id>, personal: seq<Id>, requested: seq<Id>): Edited {
    Edited(Models(personal, ResolveOwnedOrder(inherited, personal, requested)))
  }

  function Apply(inherited: seq<Id>, m: Models, edit: Edit): Edited {
    match edit
    case Adding(id) =>
      if id in inherited || id in m.personal then Refused(AlreadyExists)
      else With(inherited, m.personal + [id], m.order)
    case Renaming(current, next) =>
      if current == next then Edited(m)
      else if current in inherited then Refused(IsInherited)
      else if current !in m.personal then Refused(DoesNotExist)
      else if next in m.personal || next in inherited then Refused(AlreadyExists)
      else With(inherited, Replace(m.personal, current, next), Replace(m.order, current, next))
    case Deleting(id) =>
      if id in inherited then Refused(IsInherited)
      else if id !in m.personal then Refused(DoesNotExist)
      else With(inherited, Except(m.personal, {id}), m.order)
    case Reordering(ids) => With(inherited, m.personal, ids)
  }

  /** After every edit but a rename to itself, the order lists inherited and personal ids, each once. */
  lemma EditsListAll(inherited: seq<Id>, m: Models, edit: Edit)
    requires Apply(inherited, m, edit).Edited? && !(edit.Renaming? && edit.current == edit.next)
    ensures var after := Apply(inherited, m, edit).models; Lists(after.order, inherited, after.personal)
  {
    var after := Apply(inherited, m, edit).models;
    hide ResolveOwnedOrder;
    var requested := match edit
      case Adding(id) => m.order
      case Renaming(current, next) => Replace(m.order, current, next)
      case Deleting(id) => m.order
      case Reordering(ids) => ids;
    OrderLists(inherited, after.personal, requested);
  }

  /** Personal ids stay distinct, and apart from inherited ones. */
  lemma EditsKeepPersonal(inherited: seq<Id>, m: Models, edit: Edit)
    requires Apply(inherited, m, edit).Edited? && Distinct(m.personal)
    requires forall x :: x in m.personal ==> x !in inherited
    ensures var after := Apply(inherited, m, edit).models;
      Distinct(after.personal) && forall x :: x in after.personal ==> x !in inherited
  {
    match edit
    case Adding(id) =>
      DistinctJoined(m.personal, [id]);
    case Renaming(current, next) => if current != next { ReplaceDistinct(m.personal, current, next); }
    case Deleting(id) => ExceptIsDistinct(m.personal, {id});
    case Reordering(_) =>
  }

  lemma ReplaceDistinct(q: seq<Id>, current: Id, next: Id)
    requires Distinct(q) && next !in q
    ensures Distinct(Replace(q, current, next))
    ensures forall x :: x in Replace(q, current, next) <==> (x in q && x != current) || (x == next && current in q)
  {
    var r := Replace(q, current, next);
    forall x ensures x in r <==> (x in q && x != current) || (x == next && current in q) {
      if x in q && x != current {
        var k :| 0 <= k < |q| && q[k] == x;
        assert r[k] == x;
      }
      if x == next && current in q {
        var k :| 0 <= k < |q| && q[k] == current;
        assert r[k] == next;
      }
    }
  }

  // What an edit does to an order that lists everything

  /** A new model goes to the end; the saved order stays. */
  lemma AddingAppends(inherited: seq<Id>, m: Models, id: Id)
    requires Lists(m.order, inherited, m.personal) && id !in inherited && id !in m.personal
    ensures Apply(inherited, m, Adding(id)) == Edited(Models(m.personal + [id], m.order + [id]))
  {
    hide ResolveOwnedOrder;
    AppendedOrder(inherited, m.personal, m.order, id);
  }

  lemma AppendedOrder(inherited: seq<Id>, personal: seq<Id>, order: seq<Id>, id: Id)
    requires Lists(order, inherited, personal) && id !in inherited && id !in personal
    ensures ResolveOwnedOrder(inherited, personal + [id], order) == order + [id]
  {
    hide ResolveOwnedOrder;
    var builtin := UniqueInOrder(inherited);
    var added := personal + [id];
    PartialOrderExtends(inherited, added, order);
    ExceptAll(builtin, Members(order));
    var rest := Except(Except(UniqueInOrder(added), Members(builtin)), Members(order));
    UniqueIsDistinct(added, {});
    ExceptIsDistinct(UniqueInOrder(added), Members(builtin));
    ExceptIsDistinct(Except(UniqueInOrder(added), Members(builtin)), Members(order));
    assert forall x :: x in rest <==> x == id by {
      assert forall x :: x in added <==> x in personal || x == id;
    }
    OnlyOne(rest, id);
    assert [] + order + [id] == order + [id];
  }

  lemma HasMember(q: seq<Id>)
    ensures q == [] || exists y :: y in q
  {
    if q != [] { assert q[0] in q; }
  }

  lemma OnlyOne(q: seq<Id>, x: Id)
    requires Distinct(q) && forall y :: y in q <==> y == x
    ensures q == [x]
  {
    assert x in q && q[0] in q;
    HeadDiffers(q);
    HasMember(q[1..]);
    assert forall y :: y in q[1..] ==> y in q;
    assert q == [q[0]] + q[1..];
  }

  /** Deleting a model leaves the order of the others. */
  lemma DeletingDrops(inherited: seq<Id>, m: Models, id: Id)
    requires Lists(m.order, inherited, m.personal) && id !in inherited && id in m.personal
    ensures Apply(inherited, m, Deleting(id)) == Edited(Models(Except(m.personal, {id}), Except(m.order, {id})))
  {
    hide ResolveOwnedOrder;
    var personal := Except(m.personal, {id});
    var order := Except(m.order, {id});
    ExceptIsDistinct(m.order, {id});
    FullOrderStays(inherited, personal, order);
    SameMembersOrder(inherited, personal, m.order, id);
  }

  /** An id that is no member makes no difference in the requested order. */
  lemma SameMembersOrder(builtinIds: seq<Id>, personalIds: seq<Id>, order: seq<Id>, id: Id)
    requires Distinct(order) && id !in builtinIds && id !in personalIds
    ensures ResolveOwnedOrder(builtinIds, personalIds, order) == ResolveOwnedOrder(builtinIds, personalIds, Except(order, {id}))
  {
    var builtin := UniqueInOrder(builtinIds);
    var members := Members(builtin + Except(UniqueInOrder(personalIds), Members(builtin)));
    UniqueOfDistinct(order, {});
    ExceptIsDistinct(order, {id});
    UniqueOfDistinct(Except(order, {id}), {});
    OnlyIgnores(order, members, id);
  }

  lemma OnlyCons(x: Id, q: seq<Id>, keep: set<Id>)
    ensures Only([x] + q, keep) == (if x in keep then [x] else []) + Only(q, keep)
  {
    assert ([x] + q)[1..] == q;
  }

  lemma {:induction false} OnlyIgnores(q: seq<Id>, keep: set<Id>, id: Id)
    requires id !in keep
    ensures Only(Except(q, {id}), keep) == Only(q, keep)
  {
    if q != [] {
      OnlyIgnores(q[1..], keep, id);
      if q[0] != id {
        OnlyCons(q[0], Except(q[1..], {id}), keep);
      } else {
        assert [] + Except(q[1..], {id}) == Except(q[1..], {id});
        assert [] + Only(q[1..], keep) == Only(q[1..], keep);
      }
    }
  }

  /** A renamed model keeps its place. */
  lemma RenamingKeepsPlace(inherited: seq<Id>, m: Models, current: Id, next: Id)
    requires Lists(m.order, inherited, m.personal) && current !in inherited && current in m.personal
    requires next !in inherited && next !in m.personal && Distinct(m.personal)
    ensures Apply(inherited, m, Renaming(current, next))
         == Edited(Models(Replace(m.personal, current, next), Replace(m.order, current, next)))
  {
    hide ResolveOwnedOrder;
    ReplaceDistinct(m.personal, current, next);
    assert next !in m.order;
    ReplaceDistinct(m.order, current, next);
    var order, personal := Replace(m.order, current, next), Replace(m.personal, current, next);
    ReplacedDiffers(m.order, current, next);
    FullOrderStays(inherited, personal, order);
  }

  lemma ReplacedDiffers(q: seq<Id>, current: Id, next: Id)
    requires Distinct(q) && next !in q
    ensures Distinct(Replace(q, current, next))
  {
  }

  // Orders that the user asks for

  /** Reordering is never refused, leaves the personal ids, and puts any two models in the order asked for. */
  lemma ReorderingRespects(inherited: seq<Id>, m: Models, ids: seq<Id>, x: Id, y: Id)
    requires x != y && Precedes(ids, x, y)
    requires (x in inherited || x in m.personal) && (y in inherited || y in m.personal)
    ensures var r := Apply(inherited, m, Reordering(ids));
      r.Edited? && r.models.personal == m.personal && Precedes(r.models.order, x, y)
  {
    hide ResolveOwnedOrder;
    OrderRespects(inherited, m.personal, ids, x, y);
  }

  /** The model that an edit is about. */
  function Subject(edit: Edit): Id
    requires !edit.Reordering?
  {
    match edit
    case Adding(id) => id
    case Deleting(id) => id
    case Renaming(current, _) => current
  }

  /** An edit is refused exactly when it adds what exists, or changes what is inherited or does not exist. */
  lemma RefusedExactlyWhen(inherited: seq<Id>, m: Models, edit: Edit)
    ensures var r := Apply(inherited, m, edit);
      && (r.Refused? <==>
            match edit
            case Adding(id) => id in inherited + m.personal
            case Deleting(id) => id !in m.personal || id in inherited
            case Renaming(current, next) =>
              current != next && (current !in m.personal || current in inherited || next in inherited + m.personal)
            case Reordering(_) => false)
      && (r.Refused? && r.why.IsInherited? ==> !edit.Adding? && Subject(edit) in inherited)
      && (r.Refused? && r.why.DoesNotExist? ==> !edit.Adding? && Subject(edit) !in inherited + m.personal)
      && (r.Refused? && r.why.AlreadyExists? ==>
            (if edit.Renaming? then edit.next else Subject(edit)) in inherited + m.personal)
  {
    hide ResolveOwnedOrder;
  }
}
