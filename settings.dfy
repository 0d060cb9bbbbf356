/**
 * The settings page: four groups of preferences, their change handlers,
 * the password rules of the security save, and the simulated save that
 * finishes when its timer fires.
 */
module Settings {
  import opened Wrappers

  datatype Profile = Profile(companyName: string, email: string, website: string, phone: string, description: string, logo: string)

  /** The profile inputs `handleProfileChange` serves. */
  datatype ProfileField = CompanyName | Email | Website | Phone | Description

  datatype Security = Security(currentPassword: string, newPassword: string, confirmPassword: string, twoFactorEnabled: bool)

  /** The password inputs `handleSecurityChange` serves. */
  datatype SecurityField = CurrentPassword | NewPassword | ConfirmPassword

  datatype Notifications = Notifications(emailSales: bool, emailWithdrawals: bool, emailProducts: bool, emailMarketing: bool, browserNotifications: bool)

  /** The switches `handleNotificationChange` serves. */
  datatype NotificationKey = EmailSales | EmailWithdrawals | EmailProducts | EmailMarketing | BrowserNotifications

  datatype Payment = Payment(defaultPaymentMethod: string, autoWithdrawal: bool, autoWithdrawalThreshold: string, autoWithdrawalDay: string)

  /** The payment inputs `handlePaymentChange` serves. */
  datatype PaymentField = AutoWithdrawalThreshold | AutoWithdrawalDay

  /** The save whose timer is running; only a security save changes anything when it fires. */
  datatype SaveKind = ProfileSave | SecuritySave | NotificationsSave | PaymentSave

  /** Why `handleSaveSecurity` refuses. */
  datatype SecurityError = PasswordsDoNotMatch | PasswordTooShort

  function InitialProfile(): Profile
  {
    Profile("Digital Games Inc.", "contact@digitalgames.com", "https://digitalgames.com", "+1 (555) 123-4567",
            "We are a leading provider of digital games and software products.",
            "/placeholder.svg?height=100&width=100&text=DG")
  }

  function InitialSecurity(): Security
  {
    Security("", "", "", false)
  }

  function InitialNotifications(): Notifications
  {
    Notifications(true, true, true, false, true)
  }

  function InitialPayment(): Payment
  {
    Payment("bank", false, "500", "1")
  }

  function SetProfileField(p: Profile, field: ProfileField, value: string): Profile
  {
    match field
    case CompanyName => p.(companyName := value)
    case Email => p.(email := value)
    case Website => p.(website := value)
    case Phone => p.(phone := value)
    case Description => p.(description := value)
  }

  function ProfileValue(p: Profile, field: ProfileField): string
  {
    match field
    case CompanyName => p.companyName
    case Email => p.email
    case Website => p.website
    case Phone => p.phone
    case Description => p.description
  }

  function SetSecurityField(s: Security, field: SecurityField, value: string): Security
  {
    match field
    case CurrentPassword => s.(currentPassword := value)
    case NewPassword => s.(newPassword := value)
    case ConfirmPassword => s.(confirmPassword := value)
  }

  function SetNotification(n: Notifications, key: NotificationKey, value: bool): Notifications
  {
    match key
    case EmailSales => n.(emailSales := value)
    case EmailWithdrawals => n.(emailWithdrawals := value)
    case EmailProducts => n.(emailProducts := value)
    case EmailMarketing => n.(emailMarketing := value)
    case BrowserNotifications => n.(browserNotifications := value)
  }

  function NotificationValue(n: Notifications, key: NotificationKey): bool
  {
    match key
    case EmailSales => n.emailSales
    case EmailWithdrawals => n.emailWithdrawals
    case EmailProducts => n.emailProducts
    case EmailMarketing => n.emailMarketing
    case BrowserNotifications => n.browserNotifications
  }

  function SetPaymentField(p: Payment, field: PaymentField, value: string): Payment
  {
    match field
    case AutoWithdrawalThreshold => p.(autoWithdrawalThreshold := value)
    case AutoWithdrawalDay => p.(autoWithdrawalDay := value)
  }

  /** The checks of `handleSaveSecurity`, in order: the confirmation first, then the length of a new password. */
  function CheckSecurity(s: Security): (r: Option<SecurityError>)
    ensures r == Some(PasswordsDoNotMatch) <==> s.newPassword != s.confirmPassword
    ensures r == Some(PasswordTooShort) <==> s.newPassword == s.confirmPassword && 0 < |s.newPassword| < 8
  {
    if s.newPassword != s.confirmPassword then Some(PasswordsDoNotMatch)
    else if s.newPassword != "" && |s.newPassword| < 8 then Some(PasswordTooShort)
    else None
  }

  /** What the security save's timer does: the three password inputs are cleared, two-factor is kept. */
  function ClearPasswords(s: Security): (r: Security)
    ensures r.currentPassword == "" && r.newPassword == "" && r.confirmPassword == ""
    ensures r.twoFactorEnabled == s.twoFactorEnabled
  {
    s.(currentPassword := "", newPassword := "", confirmPassword := "")
  }

  // ------------------------------------------------------------ lemmas

  /** A security save goes ahead exactly when the two new-password inputs agree and are empty or long enough. */
  lemma SecurityAcceptedIff(s: Security)
    ensures CheckSecurity(s) == None <==> s.newPassword == s.confirmPassword && (s.newPassword == "" || |s.newPassword| >= 8)
  {
  }

  /** Leaving the password inputs empty (to save only the two-factor switch) is accepted. */
  lemma EmptyPasswordsAccepted(s: Security)
    requires s.newPassword == "" && s.confirmPassword == ""
    ensures CheckSecurity(s) == None
    ensures CheckSecurity(ClearPasswords(s)) == None
  {
  }

  /** A profile input changes its own field and no other. */
  lemma ProfileFieldIndependent(p: Profile, field: ProfileField, other: ProfileField, value: string)
    ensures ProfileValue(SetProfileField(p, field, value), field) == value
    ensures other != field ==> ProfileValue(SetProfileField(p, field, value), other) == ProfileValue(p, other)
    ensures SetProfileField(p, field, value).logo == p.logo
  {
  }

  /** A notification switch changes its own preference and no other. */
  lemma NotificationIndependent(n: Notifications, key: NotificationKey, other: NotificationKey, value: bool)
    ensures NotificationValue(SetNotification(n, key, value), key) == value
    ensures other != key ==> NotificationValue(SetNotification(n, key, value), other) == NotificationValue(n, other)
  {
  }

  // ------------------------------------------------------------ the page

  /**
   * The page's state. `pending` is the save whose one-second timer is
   * running; the save buttons are disabled while `isSaving`, so there is
   * at most one.
   */
  class SettingsPage {
    var profile: Profile
    var security: Security
    var notifications: Notifications
    var payment: Payment
    var isSaving: bool
    var pending: Option<SaveKind>

    /** A timer runs exactly while the page shows it is saving. */
    predicate Valid()
      reads this
    {
      isSaving <==> pending.Some?
    }

    constructor ()
      ensures Valid() && !isSaving
      ensures profile == InitialProfile() && security == InitialSecurity()
      ensures notifications == InitialNotifications() && payment == InitialPayment()
    {
      profile := InitialProfile();
      security := InitialSecurity();
      notifications := InitialNotifications();
      payment := InitialPayment();
      isSaving := false;
      pending := None;
    }

    method HandleProfileChange(field: ProfileField, value: string)
      modifies this
      ensures profile == SetProfileField(old(profile), field, value)
      ensures security == old(security) && notifications == old(notifications) && payment == old(payment)
      ensures isSaving == old(isSaving) && pending == old(pending)
    {
      profile := SetProfileField(profile, field, value);
    }

    method HandleSecurityChange(field: SecurityField, value: string)
      modifies this
      ensures security == SetSecurityField(old(security), field, value)
      ensures profile == old(profile) && notifications == old(notifications) && payment == old(payment)
      ensures isSaving == old(isSaving) && pending == old(pending)
    {
      security := SetSecurityField(security, field, value);
    }

    /** The two-factor switch. */
    method SetTwoFactor(checked: bool)
      modifies this
      ensures security == old(security).(twoFactorEnabled := checked)
      ensures profile == old(profile) && notifications == old(notifications) && payment == old(payment)
      ensures isSaving == old(isSaving) && pending == old(pending)
    {
      security := security.(twoFactorEnabled := checked);
    }

    method HandleNotificationChange(key: NotificationKey, value: bool)
      modifies this
      ensures notifications == SetNotification(old(notifications), key, value)
      ensures profile == old(profile) && security == old(security) && payment == old(payment)
      ensures isSaving == old(isSaving) && pending == old(pending)
    {
      notifications := SetNotification(notifications, key, value);
    }

    method HandlePaymentChange(field: PaymentField, value: string)
      modifies this
      ensures payment == SetPaymentField(old(payment), field, value)
      ensures profile == old(profile) && security == old(security) && notifications == old(notifications)
      ensures isSaving == old(isSaving) && pending == old(pending)
    {
      payment := SetPaymentField(payment, field, value);
    }

    /** The automatic-withdrawal switch. */
    method SetAutoWithdrawal(checked: bool)
      modifies this
      ensures payment == old(payment).(autoWithdrawal := checked)
      ensures profile == old(profile) && security == old(security) && notifications == old(notifications)
      ensures isSaving == old(isSaving) && pending == old(pending)
    {
      payment := payment.(autoWithdrawal := checked);
    }

    /** `handleSaveProfile`, `handleSaveNotifications` and `handleSavePayment`: start the timer. */
    method HandleSave(kind: SaveKind)
      requires Valid() && !isSaving && kind != SecuritySave
      modifies this
      ensures Valid() && isSaving && pending == Some(kind)
      ensures profile == old(profile) && security == old(security)
      ensures notifications == old(notifications) && payment == old(payment)
    {
      isSaving := true;
      pending := Some(kind);
    }

    /** `handleSaveSecurity`: refuse with the first failing check, or start the timer. */
    method HandleSaveSecurity() returns (error: Option<SecurityError>)
      requires Valid() && !isSaving
      modifies this
      ensures Valid() && error == CheckSecurity(old(security))
      ensures error.None? ==> isSaving && pending == Some(SecuritySave)
      ensures error.Some? ==> !isSaving && pending == None
      ensures profile == old(profile) && security == old(security)
      ensures notifications == old(notifications) && payment == old(payment)
    {
      error := CheckSecurity(security);
      if error.None? {
        isSaving := true;
        pending := Some(SecuritySave);
      }
    }

    /** The timer fires: a security save clears the password inputs; every save ends. */
    method TimerFires()
      requires Valid() && pending.Some?
      modifies this
      ensures Valid() && !isSaving
      ensures old(pending) == Some(SecuritySave) ==> security == ClearPasswords(old(security))
      ensures old(pending) != Some(SecuritySave) ==> security == old(security)
      ensures profile == old(profile) && notifications == old(notifications) && payment == old(payment)
    {
      if pending == Some(SecuritySave) {
        security := ClearPasswords(security);
      }
      isSaving := false;
      pending := None;
    }
  }
}
