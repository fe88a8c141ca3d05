/**
 * The builder notification service's hand-written protocol glue: the
 * category's default, text form, serialization and parsing, and the
 * routing key of a create request.
 */
module NotifySrv {
  import opened Wrappers
  import Str = Text
  import NM = NotifyMessage

  datatype NotifyError = BadNotificationCategory

  function DefaultCategory(): NM.NotificationCategory
  {
    NM.Info
  }

  /** `Display`. */
  function CategoryText(c: NM.NotificationCategory): string
  {
    match c
    case Info => "info"
    case Error => "error"
  }

  /** `Serialize`: the enum's number 1 is "info", 2 is "error". */
  function SerializeCategory(c: NM.NotificationCategory): (s: string)
    ensures s == CategoryText(c)
  {
    var n := c.Value();
    if n == 1 then "info" else "error"
  }

  /** `from_str`: the lower-cased input must be "info" or "error". */
  function CategoryFromStr(s: string): (r: Result<NM.NotificationCategory, NotifyError>)
    ensures r.Ok? ==> CategoryText(r.value) == Str.LowerStr(s)
    ensures r.Err? ==> r.error == BadNotificationCategory && Str.LowerStr(s) != "info" && Str.LowerStr(s) != "error"
  {
    var lower := Str.LowerStr(s);
    if lower == "info" then Ok(NM.Info)
    else if lower == "error" then Ok(NM.Error)
    else Err(BadNotificationCategory)
  }

  /** Parsing the text form gives the category back; any capitalization of it does too. */
  lemma CategoryRoundTrip(c: NM.NotificationCategory)
    ensures CategoryFromStr(CategoryText(c)) == Ok(c)
    ensures CategoryFromStr(Str.UpperStr(CategoryText(c))) == Ok(c)
  {
    var t := CategoryText(c);
    assert Str.LowerStr(t) == t by {
      assert forall i :: 0 <= i < |t| ==> Str.AsciiLower(t[i]) == t[i];
    }
    var u := Str.UpperStr(t);
    assert Str.LowerStr(u) == t by {
      assert forall i :: 0 <= i < |t| ==> Str.AsciiLower(Str.AsciiUpper(t[i])) == t[i];
    }
  }

  /** "INFO" and "Error" parse; anything whose lower case is neither word fails. */
  lemma ParseExamples()
    ensures CategoryFromStr("INFO") == Ok(NM.Info)
    ensures CategoryFromStr("Error") == Ok(NM.Error)
    ensures CategoryFromStr("warn") == Err(BadNotificationCategory)
  {
    var info := Str.LowerStr("INFO");
    assert info[0] == 'i' && info[1] == 'n' && info[2] == 'f' && info[3] == 'o';
    assert info == "info";
    var error := Str.LowerStr("Error");
    assert error[0] == 'e' && error[1] == 'r' && error[2] == 'r' && error[3] == 'o' && error[4] == 'r';
    assert error == "error";
    var warn := Str.LowerStr("warn");
    assert warn[0] == 'w';
  }

  /** `route_key`: the embedded notification's origin id, 0 when unset. */
  function RouteKey(c: NM.NotificationCreate): (r: Option<NM.u64>)
    ensures r.Some?
    ensures c.notification.None? || c.notification.value.originId.None? ==> r.value == 0
    ensures c.notification.Some? && c.notification.value.originId.Some? ==> r.value == c.notification.value.originId.value
  {
    Some(c.GetNotification().GetOriginId())
  }

  lemma DefaultIsInfo()
    ensures CategoryText(DefaultCategory()) == "info"
    ensures DefaultCategory() == NM.EmptyNotification.GetCategory()
  {
  }
}
