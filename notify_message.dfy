/**
 * The builder notification messages (proto2): `Notification` with its
 * optional id, origin id, account id, category and data, and
 * `NotificationCreate` wrapping an optional notification.
 */
module NotifyMessage {
  import Wrappers
  type Option<T> = Wrappers.Option<T>

  const U64Modulus: int := 0x1_0000_0000_0000_0000
  newtype u64 = x: int | 0 <= x < 0x1_0000_0000_0000_0000

  datatype NotificationCategory = Info | Error
  {
    function Value(): int { match this case Info => 1 case Error => 2 }
  }

  /** `NotificationCategory::from_i32`: 1 and 2 only. */
  function CategoryFromI32(i: int): (r: Option<NotificationCategory>)
    ensures r.Some? <==> i == 1 || i == 2
    ensures r.Some? ==> r.value.Value() == i
  {
    if i == 1 then Wrappers.Some(Info) else if i == 2 then Wrappers.Some(Error) else Wrappers.None
  }

  lemma CategoryRoundTrip(c: NotificationCategory)
    ensures CategoryFromI32(c.Value()) == Wrappers.Some(c)
  {
  }

  /** A notification's fields, each set or unset. */
  datatype Notification = Notification(id: Option<u64>, originId: Option<u64>, accountId: Option<u64>,
                                       category: Option<NotificationCategory>, data: Option<string>)
  {
    function GetId(): u64 { if id.Some? then id.value else 0 }
    function GetOriginId(): u64 { if originId.Some? then originId.value else 0 }
    function GetAccountId(): u64 { if accountId.Some? then accountId.value else 0 }
    function GetCategory(): NotificationCategory { if category.Some? then category.value else Info }
    function GetData(): string { if data.Some? then data.value else "" }
    /** A notification has no required fields. */
    predicate IsInitialized() { true }
  }

  const EmptyNotification: Notification := Notification(Wrappers.None, Wrappers.None, Wrappers.None, Wrappers.None, Wrappers.None)

  /** Every unset field reads as its default: zero ids, category Info, empty data. */
  lemma UnsetDefaults(n: Notification)
    ensures n.id.None? ==> n.GetId() == 0
    ensures n.originId.None? ==> n.GetOriginId() == 0
    ensures n.accountId.None? ==> n.GetAccountId() == 0
    ensures n.category.None? ==> n.GetCategory() == Info
    ensures n.data.None? ==> n.GetData() == ""
  {
  }

  datatype NotificationCreate = NotificationCreate(notification: Option<Notification>)
  {
    function GetNotification(): Notification
    {
      if notification.Some? then notification.value else EmptyNotification
    }

    predicate IsInitialized()
    {
      notification.Some? ==> notification.value.IsInitialized()
    }
  }

  /** Since a notification is always initialized, so is every create request. */
  lemma CreateAlwaysInitialized(c: NotificationCreate)
    ensures c.IsInitialized() <==> (c.notification.None? || c.notification.value.IsInitialized())
    ensures c.IsInitialized()
  {
  }

  /** A `Notification` held in place with its accessors. */
  class NotificationMessage {
    var id: Option<u64>
    var originId: Option<u64>
    var accountId: Option<u64>
    var category: Option<NotificationCategory>
    var data: Option<string>

    function Value(): Notification
      reads this
    {
      Notification(id, originId, accountId, category, data)
    }

    constructor ()
      ensures Value() == EmptyNotification
    {
      id := Wrappers.None;
      originId := Wrappers.None;
      accountId := Wrappers.None;
      category := Wrappers.None;
      data := Wrappers.None;
    }

    function HasId(): bool
      reads this
    {
      id.Some?
    }

    method SetId(v: u64)
      modifies this
      ensures Value() == old(Value()).(id := Wrappers.Some(v))
      ensures HasId() && Value().GetId() == v
    {
      id := Wrappers.Some(v);
    }

    method ClearId()
      modifies this
      ensures Value() == old(Value()).(id := Wrappers.None)
      ensures !HasId() && Value().GetId() == 0
    {
      id := Wrappers.None;
    }

    method SetOriginId(v: u64)
      modifies this
      ensures Value() == old(Value()).(originId := Wrappers.Some(v))
    {
      originId := Wrappers.Some(v);
    }

    method SetAccountId(v: u64)
      modifies this
      ensures Value() == old(Value()).(accountId := Wrappers.Some(v))
    {
      accountId := Wrappers.Some(v);
    }

    method SetCategory(v: NotificationCategory)
      modifies this
      ensures Value() == old(Value()).(category := Wrappers.Some(v))
    {
      category := Wrappers.Some(v);
    }

    method SetData(v: string)
      modifies this
      ensures Value() == old(Value()).(data := Wrappers.Some(v))
    {
      data := Wrappers.Some(v);
    }

    /** `take_data`: the stored data or "", and the field is left unset. */
    method TakeData() returns (r: string)
      modifies this
      ensures r == old(Value()).GetData()
      ensures Value() == old(Value()).(data := Wrappers.None) && Value().GetData() == ""
    {
      r := if data.Some? then data.value else "";
      data := Wrappers.None;
    }

    /** `mut_data`: unset data becomes "". */
    method MutData() returns (r: string)
      modifies this
      ensures old(data).None? ==> Value() == old(Value()).(data := Wrappers.Some(""))
      ensures old(data).Some? ==> Value() == old(Value())
      ensures r == Value().GetData()
    {
      if data.None? {
        data := Wrappers.Some("");
      }
      r := data.value;
    }

    /** `Clear::clear` unsets all five fields. */
    method Clear()
      modifies this
      ensures Value() == EmptyNotification
    {
      id := Wrappers.None;
      originId := Wrappers.None;
      accountId := Wrappers.None;
      category := Wrappers.None;
      data := Wrappers.None;
    }
  }

  /** `NotificationCreate` held in place. */
  class NotificationCreateMessage {
    var notification: Option<Notification>

    constructor ()
      ensures notification.None?
    {
      notification := Wrappers.None;
    }

    method SetNotification(v: Notification)
      modifies this
      ensures notification == Wrappers.Some(v)
    {
      notification := Wrappers.Some(v);
    }

    method TakeNotification() returns (r: Notification)
      modifies this
      ensures r == NotificationCreate(old(notification)).GetNotification() && notification.None?
    {
      r := NotificationCreate(notification).GetNotification();
      notification := Wrappers.None;
    }

    method Clear()
      modifies this
      ensures notification.None?
    {
      notification := Wrappers.None;
    }
  }

  /** Set, read, clear and take on one notification, in the order a caller would. */
  method AccessorRules(m: NotificationMessage, v: u64, d: string) returns (gotId: u64, hadId: bool, clearedHas: bool, taken: string, after: string)
    modifies m
    ensures gotId == v && hadId && !clearedHas && taken == d && after == ""
  {
    m.SetId(v);
    gotId := m.Value().GetId();
    hadId := m.HasId();
    m.ClearId();
    clearedHas := m.HasId();
    m.SetData(d);
    taken := m.TakeData();
    after := m.Value().GetData();
  }
}
