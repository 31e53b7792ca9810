/** app/services/inventory_service.py. */
module InventoryService {
  import opened Wrappers
  import opened Models
  import opened Queries
  import opened Operations
  import opened Sessions

  method ChangeStatus(db: Session, iid: Id, status: DeviceStatus, actor: Id, now: Time) returns (r: Reply)
    modifies db
    ensures Performed(old(db.Snapshot()), PlanChangeStatus(old(db.Snapshot()), iid, status, actor, now), db.Snapshot(), r)
  {
    CommitOmits(db.Snapshot());
    if iid !in db.items { return Raised(NotFound); }
    var item := db.items[iid];
    var fromStatus := item.status;
    db.PutItem(iid, item.(status := status), now);
    db.Append(now, iid, StatusEvent(status), Some(actor), ItAdmin, fromValue := Some(fromStatus), toValue := Some(status));
    return Done;
  }

  method CreateItem(
    db: Session, iid: Id, serialNo: string, name: string, category: Id, ownerType: OwnerType,
    clientName: Option<string>, purchaseDate: Option<Time>, actor: Id, now: Time) returns (r: Reply)
    modifies db
    ensures Performed(old(db.Snapshot()),
                      PlanCreateItem(old(db.Snapshot()), iid, serialNo, name, category, ownerType, clientName, purchaseDate,
                                     actor, now),
                      db.Snapshot(), r)
  {
    CommitOmits(db.Snapshot());
    if category !in db.categories { return Raised(NotFound); }
    if exists i :: i in db.items && db.items[i].serialNo == serialNo { return Raised(Conflict); }
    if iid in db.items { return Raised(IndexCrash); }
    var client := if ownerType.Client? then clientName else None;
    db.AddItem(iid, Item(serialNo, name, category, ownerType, client, purchaseDate, Available, None, now));
    db.Append(now, iid, DeviceCreated, Some(actor), ItAdmin, toValue := Some(Available));
    return Done;
  }

  // ---- edit_item: the loop over the editable fields.

  datatype Field = NameField | CategoryField | ClientField | PurchaseField

  datatype FieldValue = Text(text: string) | Category(id: Id) | OptionalText(client: Option<string>) | Day(day: Option<Time>)

  /** _EDITABLE_FIELDS. */
  const EDITABLE_FIELDS := [NameField, CategoryField, ClientField, PurchaseField]

  function GetField(item: Item, f: Field): FieldValue {
    match f
    case NameField => Text(item.name)
    case CategoryField => Category(item.categoryId)
    case ClientField => OptionalText(item.clientName)
    case PurchaseField => Day(item.purchaseDate)
  }

  predicate Fits(f: Field, v: FieldValue) {
    match f
    case NameField => v.Text?
    case CategoryField => v.Category?
    case ClientField => v.OptionalText?
    case PurchaseField => v.Day?
  }

  function SetField(item: Item, f: Field, v: FieldValue): Item
    requires Fits(f, v)
  {
    match f
    case NameField => item.(name := v.text)
    case CategoryField => item.(categoryId := v.id)
    case ClientField => item.(clientName := v.client)
    case PurchaseField => item.(purchaseDate := v.day)
  }

  /** `updates[field]`, if the key is present. */
  function Wanted(u: ItemUpdates, f: Field): Option<FieldValue> {
    match f
    case NameField => if u.name.Some? then Some(Text(u.name.value)) else None
    case CategoryField => if u.categoryId.Some? then Some(Category(u.categoryId.value)) else None
    case ClientField => if u.clientName.Some? then Some(OptionalText(u.clientName.value)) else None
    case PurchaseField => if u.purchaseDate.Some? then Some(Day(u.purchaseDate.value)) else None
  }

  /** Two items that differ in editable fields only. */
  predicate SameFixedFields(a: Item, b: Item) {
    && a.serialNo == b.serialNo && a.ownerType == b.ownerType
    && a.status == b.status && a.owner == b.owner && a.updatedAt == b.updatedAt
  }

  datatype Delta = Delta(old_: FieldValue, new_: FieldValue)

  /** The diff names exactly the fields that differ, with their old and new values. */
  ghost predicate IsDiff(before: Item, after: Item, changes: map<Field, Delta>) {
    && (forall f :: f in changes <==> GetField(before, f) != GetField(after, f))
    && (forall f :: f in changes ==> changes[f] == Delta(GetField(before, f), GetField(after, f)))
  }

  /** The loop of `edit_item`: the edited item together with the diff that goes into the log entry. */
  method ApplyUpdates(item: Item, updates: ItemUpdates) returns (edited: Item, changes: map<Field, Delta>)
    ensures edited == Edited(item, updates)
    ensures IsDiff(item, edited, changes)
  {
    edited, changes := item, map[];
    for k := 0 to |EDITABLE_FIELDS|
      invariant SameFixedFields(edited, item)
      invariant edited.name == if k > 0 then updates.name.GetOr(item.name) else item.name
      invariant edited.categoryId == if k > 1 then updates.categoryId.GetOr(item.categoryId) else item.categoryId
      invariant edited.clientName == if k > 2 then updates.clientName.GetOr(item.clientName) else item.clientName
      invariant edited.purchaseDate == if k > 3 then updates.purchaseDate.GetOr(item.purchaseDate) else item.purchaseDate
      invariant IsDiff(item, edited, changes)
    {
      var field := EDITABLE_FIELDS[k];
      var wanted := Wanted(updates, field);
      if wanted.Some? {
        var oldValue := GetField(edited, field);
        if wanted.value != oldValue {
          changes := changes[field := Delta(oldValue, wanted.value)];
          edited := SetField(edited, field, wanted.value);
        }
      }
    }
  }

  /** `changes` is what the entry's metadata stores; an entry is written exactly if it is not empty. */
  method EditItem(db: Session, iid: Id, updates: ItemUpdates, actor: Id, now: Time)
    returns (r: Reply, changes: map<Field, Delta>)
    modifies db
    ensures r.Done? ==> iid in old(db.items) && iid in db.items && IsDiff(old(db.items[iid]), db.items[iid], changes)
    ensures r.Done? ==> |db.log| == |old(db.log)| + if changes == map[] then 0 else 1
    ensures Performed(old(db.Snapshot()), PlanEditItem(old(db.Snapshot()), iid, updates, actor, now), db.Snapshot(), r)
  {
    CommitOmits(db.Snapshot());
    if iid !in db.items { return Raised(NotFound), map[]; }
    if updates.categoryId.Some? && updates.categoryId.value !in db.categories { return Raised(NotFound), map[]; }
    var item;
    item, changes := ApplyUpdates(db.items[iid], updates);
    DiffEmpty(db.items[iid], item, changes);
    db.PutItem(iid, item, now);
    if changes != map[] {
      db.Append(now, iid, DeviceEdited, Some(actor), ItAdmin);
    }
    return Done, changes;
  }

  lemma DiffEmpty(before: Item, after: Item, changes: map<Field, Delta>)
    requires IsDiff(before, after, changes) && SameFixedFields(before, after)
    ensures changes == map[] <==> after == before
  {
    assert GetField(before, NameField) == GetField(after, NameField) ==> before.name == after.name;
    assert GetField(before, CategoryField) == GetField(after, CategoryField) ==> before.categoryId == after.categoryId;
    assert GetField(before, ClientField) == GetField(after, ClientField) ==> before.clientName == after.clientName;
    assert GetField(before, PurchaseField) == GetField(after, PurchaseField) ==> before.purchaseDate == after.purchaseDate;
    if after == before { assert forall f :: f !in changes; }
  }

  function Restored(item: Item, changes: map<Field, Delta>, f: Field): FieldValue {
    if f in changes then changes[f].old_ else GetField(item, f)
  }

  /** The logged old values undo the edit, field by field. */
  lemma DiffUndoes(item: Item, updates: ItemUpdates, changes: map<Field, Delta>, f: Field)
    requires IsDiff(item, Edited(item, updates), changes)
    ensures Restored(Edited(item, updates), changes, f) == GetField(item, f)
    ensures f in changes ==> Wanted(updates, f) == Some(changes[f].new_)
  {
    assert f in changes <==> GetField(item, f) != GetField(Edited(item, updates), f);
  }
}
