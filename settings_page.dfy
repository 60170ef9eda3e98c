/** The backoffice settings page: the new-admin form with its password check,
    saving the platform settings, and the one-field edits of the settings
    inputs. The numeric inputs are taken as already parsed numbers. */
module SettingsPage {
  import opened Wrappers

  datatype Role = Admin | Manager | Support

  datatype AdminUser = AdminUser(id: string, name: string, email: string, role: Role, active: bool, lastLogin: string)

  datatype PlatformSettings = PlatformSettings(
    currencySymbol: string,
    timeZone: string,
    dateFormat: string,
    bookingLeadTime: int,
    cancellationPeriod: int,
    platformFee: real,
    emailNotifications: bool,
    smsNotifications: bool,
    pushNotifications: bool)

  datatype SettingKey =
    | CurrencySymbolKey | TimeZoneKey | DateFormatKey | BookingLeadTimeKey | CancellationPeriodKey
    | PlatformFeeKey | EmailNotificationsKey | SmsNotificationsKey | PushNotificationsKey

  datatype SettingValue = Text(s: string) | Whole(i: int) | Number(x: real) | Flag(b: bool)

  /** The value of one field. */
  function Get(s: PlatformSettings, k: SettingKey): SettingValue {
    match k
    case CurrencySymbolKey => Text(s.currencySymbol)
    case TimeZoneKey => Text(s.timeZone)
    case DateFormatKey => Text(s.dateFormat)
    case BookingLeadTimeKey => Whole(s.bookingLeadTime)
    case CancellationPeriodKey => Whole(s.cancellationPeriod)
    case PlatformFeeKey => Number(s.platformFee)
    case EmailNotificationsKey => Flag(s.emailNotifications)
    case SmsNotificationsKey => Flag(s.smsNotifications)
    case PushNotificationsKey => Flag(s.pushNotifications)
  }

  /** What one input's change handler receives. */
  datatype Edit =
    | SetCurrencySymbol(text: string)
    | SetPlatformFee(fee: real)
    | SetTimeZone(text: string)
    | SetDateFormat(text: string)
    | SetBookingLeadTime(hours: int)
    | SetCancellationPeriod(hours: int)
    | SetEmailNotifications(on: bool)
    | SetSmsNotifications(on: bool)
    | SetPushNotifications(on: bool)

  function EditKey(e: Edit): SettingKey {
    match e
    case SetCurrencySymbol(_) => CurrencySymbolKey
    case SetPlatformFee(_) => PlatformFeeKey
    case SetTimeZone(_) => TimeZoneKey
    case SetDateFormat(_) => DateFormatKey
    case SetBookingLeadTime(_) => BookingLeadTimeKey
    case SetCancellationPeriod(_) => CancellationPeriodKey
    case SetEmailNotifications(_) => EmailNotificationsKey
    case SetSmsNotifications(_) => SmsNotificationsKey
    case SetPushNotifications(_) => PushNotificationsKey
  }

  function EditValue(e: Edit): SettingValue {
    match e
    case SetCurrencySymbol(t) => Text(t)
    case SetPlatformFee(f) => Number(f)
    case SetTimeZone(t) => Text(t)
    case SetDateFormat(t) => Text(t)
    case SetBookingLeadTime(h) => Whole(h)
    case SetCancellationPeriod(h) => Whole(h)
    case SetEmailNotifications(b) => Flag(b)
    case SetSmsNotifications(b) => Flag(b)
    case SetPushNotifications(b) => Flag(b)
  }

  /** `setSettings({ ...settings, field: value })`: the edited field takes the
      new value and every other field keeps its own. */
  function ApplyEdit(s: PlatformSettings, e: Edit): (r: PlatformSettings)
    ensures Get(r, EditKey(e)) == EditValue(e)
    ensures forall k :: k != EditKey(e) ==> Get(r, k) == Get(s, k)
  {
    match e
    case SetCurrencySymbol(t) => s.(currencySymbol := t)
    case SetPlatformFee(f) => s.(platformFee := f)
    case SetTimeZone(t) => s.(timeZone := t)
    case SetDateFormat(t) => s.(dateFormat := t)
    case SetBookingLeadTime(h) => s.(bookingLeadTime := h)
    case SetCancellationPeriod(h) => s.(cancellationPeriod := h)
    case SetEmailNotifications(b) => s.(emailNotifications := b)
    case SetSmsNotifications(b) => s.(smsNotifications := b)
    case SetPushNotifications(b) => s.(pushNotifications := b)
  }

  /** Settings are determined by their fields. */
  lemma {:induction false} SameFieldsSameSettings(a: PlatformSettings, b: PlatformSettings)
    requires forall k :: Get(a, k) == Get(b, k)
    ensures a == b
  {
    assert Get(a, CurrencySymbolKey) == Get(b, CurrencySymbolKey);
    assert Get(a, TimeZoneKey) == Get(b, TimeZoneKey);
    assert Get(a, DateFormatKey) == Get(b, DateFormatKey);
    assert Get(a, BookingLeadTimeKey) == Get(b, BookingLeadTimeKey);
    assert Get(a, CancellationPeriodKey) == Get(b, CancellationPeriodKey);
    assert Get(a, PlatformFeeKey) == Get(b, PlatformFeeKey);
    assert Get(a, EmailNotificationsKey) == Get(b, EmailNotificationsKey);
    assert Get(a, SmsNotificationsKey) == Get(b, SmsNotificationsKey);
    assert Get(a, PushNotificationsKey) == Get(b, PushNotificationsKey);
  }

  /** Typing a field's current value back in changes nothing, and of two
      edits to the same field only the later one shows. */
  lemma EditLaws(s: PlatformSettings, e1: Edit, e2: Edit)
    ensures EditValue(e1) == Get(s, EditKey(e1)) ==> ApplyEdit(s, e1) == s
    ensures EditKey(e1) == EditKey(e2) ==> ApplyEdit(ApplyEdit(s, e1), e2) == ApplyEdit(s, e2)
  {
    if EditValue(e1) == Get(s, EditKey(e1)) {
      SameFieldsSameSettings(ApplyEdit(s, e1), s);
    }
    if EditKey(e1) == EditKey(e2) {
      SameFieldsSameSettings(ApplyEdit(ApplyEdit(s, e1), e2), ApplyEdit(s, e2));
    }
  }

  datatype NewAdmin = NewAdmin(name: string, email: string, role: Role, password: string, confirmPassword: string)

  const BlankNewAdmin := NewAdmin("", "", Support, "", "")

  const PasswordMismatch := "Passwords do not match!"
  const SettingsSaved := "Settings saved successfully!"
  const SettingsNotSaved := "Failed to save settings. Please try again."

  class Page {
    var adminUsers: seq<AdminUser>
    var settings: Option<PlatformSettings>
    var isSaving: bool
    var showNewAdminForm: bool
    var newAdmin: NewAdmin

    constructor ()
      ensures adminUsers == [] && settings.None? && !isSaving && !showNewAdminForm && newAdmin == BlankNewAdmin
    {
      adminUsers := [];
      settings := None;
      isSaving := false;
      showNewAdminForm := false;
      newAdmin := BlankNewAdmin;
    }

    /** `handleAddAdminUser`. Returns the alert shown, if any. With differing
        passwords nothing changes; otherwise the form is cleared and hidden.
        The admin list is never touched: creating the admin is not wired up. */
    method HandleAddAdminUser() returns (alertText: Option<string>)
      modifies this
      ensures old(newAdmin).password != old(newAdmin).confirmPassword ==>
                alertText == Some(PasswordMismatch) && newAdmin == old(newAdmin) &&
                showNewAdminForm == old(showNewAdminForm)
      ensures old(newAdmin).password == old(newAdmin).confirmPassword ==>
                alertText.None? && newAdmin == BlankNewAdmin && !showNewAdminForm
      ensures adminUsers == old(adminUsers) && settings == old(settings) && isSaving == old(isSaving)
    {
      if newAdmin.password != newAdmin.confirmPassword {
        alertText := Some(PasswordMismatch);
        return;
      }
      alertText := None;
      newAdmin := BlankNewAdmin;
      showNewAdminForm := false;
    }

    /** `handleSaveSettings`. `outcome` is how the save ends. Without settings
        nothing happens; otherwise `isSaving` is set for the save, the alert
        reports the outcome and the flag is cleared in `finally`. */
    method HandleSaveSettings(outcome: Result<()>) returns (busyDuringSave: bool, alertText: Option<string>)
      modifies this
      ensures old(settings).None? ==> !busyDuringSave && alertText.None? && isSaving == old(isSaving)
      ensures old(settings).Some? ==> busyDuringSave && !isSaving
      ensures old(settings).Some? ==>
                alertText == Some(if outcome.Success? then SettingsSaved else SettingsNotSaved)
      ensures settings == old(settings) && adminUsers == old(adminUsers)
      ensures newAdmin == old(newAdmin) && showNewAdminForm == old(showNewAdminForm)
    {
      busyDuringSave := false;
      alertText := None;
      if settings.None? {
        return;
      }
      isSaving := true;
      busyDuringSave := isSaving;
      if outcome.Success? {
        alertText := Some(SettingsSaved);
      } else {
        alertText := Some(SettingsNotSaved);
      }
      isSaving := false;
    }

    /** A settings input's change handler. The inputs are shown only once
        the settings have loaded. */
    method HandleSettingsChange(e: Edit)
      requires settings.Some?
      modifies this
      ensures settings == Some(ApplyEdit(old(settings).value, e))
      ensures adminUsers == old(adminUsers) && isSaving == old(isSaving)
      ensures newAdmin == old(newAdmin) && showNewAdminForm == old(showNewAdminForm)
    {
      settings := Some(ApplyEdit(settings.value, e));
    }
  }
}
