/**
 * The settings pages: the tab chosen from the route, and the form shared by
 * the branding, general, security and notification tabs, which edits a copy
 * of the settings store and saves it to the store and the gateway.
 */
module SettingsPage {
  import opened Builtins
  import opened Types
  import SettingsStore
  import NotificationStore
  import Api

  /** The tab a route names; any other name renders no content. */
  datatype Tab = Branding | General | Security | NotificationsTab | Integrations | Unknown(name: string)

  function TabName(t: Tab): string
  {
    match t
    case Branding => "branding"
    case General => "general"
    case Security => "security"
    case NotificationsTab => "notifications"
    case Integrations => "integrations"
    case Unknown(name) => name
  }

  /** `(tab || 'branding')`: a missing or empty route parameter selects branding. */
  function ActiveTab(tab: Option<string>): (t: Tab)
    ensures TabName(t) == if tab.None? || tab.value == "" then "branding" else tab.value
  {
    var name := if tab.None? || tab.value == "" then "branding" else tab.value;
    if name == "branding" then Branding
    else if name == "general" then General
    else if name == "security" then Security
    else if name == "notifications" then NotificationsTab
    else if name == "integrations" then Integrations
    else Unknown(name)
  }

  /** The default is branding, and a route naming a known tab selects that tab. */
  lemma ActiveTabDefaultsToBranding(tab: Option<string>)
    ensures ActiveTab(None) == Branding && ActiveTab(Some("")) == Branding
    ensures tab.Some? && tab.value != "" ==> TabName(ActiveTab(tab)) == tab.value
    ensures forall t: Tab :: t.Unknown? || ActiveTab(Some(TabName(t))) == t
  {
  }

  /** The Save button's `disabled={!isDirty || isSaving}`. */
  predicate SaveDisabled(isDirty: bool, isSaving: bool): (d: bool)
    ensures !isDirty ==> d
    ensures isSaving ==> d
  {
    !isDirty || isSaving
  }

  /** Save is enabled exactly when the form differs from its baseline and no save is running. */
  lemma SaveEnabledIff(isDirty: bool, isSaving: bool)
    ensures !SaveDisabled(isDirty, isSaving) <==> isDirty && !isSaving
  {
  }

  /** The record the remote receives: the submitted data with three fields taken from the store. */
  function RemoteRecord(data: TenantSettings, store: TenantSettings): (r: TenantSettings)
    ensures r.tenantId == store.tenantId && r.logoUrl == store.logoUrl && r.faviconUrl == store.faviconUrl
    ensures r.appName == data.appName && r.primaryColor == data.primaryColor
    ensures r.(tenantId := data.tenantId, logoUrl := data.logoUrl, faviconUrl := data.faviconUrl) == data
  {
    data.(tenantId := store.tenantId, logoUrl := store.logoUrl, faviconUrl := store.faviconUrl)
  }

  /** The upload targets of the branding tab. */
  datatype UploadField = LogoField | FaviconField

  /** The one-field patch an upload writes. */
  function UploadPatch(field: UploadField, dataUrl: string): (p: SettingsStore.SettingsPatch)
    ensures p.logoUrl.Some? <==> field == LogoField
    ensures p.faviconUrl.Some? <==> field == FaviconField
    ensures p.(logoUrl := None, faviconUrl := None) == SettingsStore.EmptyPatch
  {
    match field
    case LogoField => SettingsStore.EmptyPatch.(logoUrl := Some(Some(dataUrl)))
    case FaviconField => SettingsStore.EmptyPatch.(faviconUrl := Some(Some(dataUrl)))
  }

  /** An upload changes exactly its own field of the settings. */
  lemma UploadWritesOneField(s: TenantSettings, field: UploadField, dataUrl: string)
    ensures field == LogoField ==> SettingsStore.Merge(s, UploadPatch(field, dataUrl)) == s.(logoUrl := Some(dataUrl))
    ensures field == FaviconField ==> SettingsStore.Merge(s, UploadPatch(field, dataUrl)) == s.(faviconUrl := Some(dataUrl))
  {
  }

  /** The state of one tab's form (`useSettingsForm`) and of the security tab's dialog flag. */
  class SettingsForm {
    /** What the inputs currently hold. */
    var values: TenantSettings
    /** The default values of the last reset; the form is dirty when the inputs differ from them. */
    var baseline: TenantSettings
    var isSaving: bool
    var is2FAModalOpen: bool

    predicate IsDirty()
      reads this
    {
      values != baseline
    }

    /** The form starts from the store's values, clean. */
    constructor (storeSettings: TenantSettings)
      ensures values == storeSettings && baseline == storeSettings
      ensures !isSaving && !is2FAModalOpen && !IsDirty()
    {
      values := storeSettings;
      baseline := storeSettings;
      isSaving := false;
      is2FAModalOpen := false;
    }

    /** The effect on every store change: `form.reset(settings)`. */
    method SyncFromStore(store: SettingsStore.Store)
      modifies this
      ensures values == store.settings && baseline == store.settings && !IsDirty()
      ensures isSaving == old(isSaving) && is2FAModalOpen == old(is2FAModalOpen)
    {
      values := store.settings;
      baseline := store.settings;
    }

    /** Typing in an input. */
    method Edit(v: TenantSettings)
      modifies this
      ensures values == v && baseline == old(baseline)
      ensures isSaving == old(isSaving) && is2FAModalOpen == old(is2FAModalOpen)
      ensures IsDirty() <==> v != old(baseline)
    {
      values := v;
    }

    /**
     * The part of `handleSubmit(onSubmit)` before the remote call returns:
     * the submitted data is the form's current values; saving starts, the
     * store takes them, and the remote takes them with the store's tenant
     * id, logo and favicon as they were before the save.
     */
    method BeginSave(store: SettingsStore.Store, gw: Api.Gateway)
      modifies this, store, gw
      ensures isSaving && SaveDisabled(IsDirty(), isSaving)
      ensures values == old(values) && baseline == old(baseline) && is2FAModalOpen == old(is2FAModalOpen)
      ensures store.settings == old(values) && store.theme == old(store.theme)
      ensures gw.tenantSettings == RemoteRecord(old(values), old(store.settings))
      ensures gw.users == old(gw.users) && gw.roles == old(gw.roles)
      ensures gw.auditLogs == old(gw.auditLogs) && gw.files == old(gw.files)
    {
      isSaving := true;
      var data := values;
      var snapshot := store.settings;
      store.SetSettings(SettingsStore.FullPatch(data));
      SettingsStore.MergeFull(old(store.settings), data);
      var _ := gw.UpdateTenantSettings(SettingsStore.FullPatch(RemoteRecord(data, snapshot)));
      SettingsStore.MergeFull(old(gw.tenantSettings), RemoteRecord(data, snapshot));
    }

    /**
     * The part of `onSubmit` after the remote call returns: saving ends, the
     * message shows, and `reset(data)` makes the submitted data both the
     * inputs and the baseline.
     */
    method FinishSave(data: TenantSettings, notifications: NotificationStore.Store, savedMessage: string)
      modifies this, notifications
      ensures !isSaving && values == data && baseline == data && !IsDirty()
      ensures is2FAModalOpen == old(is2FAModalOpen)
      ensures notifications.State() == NotificationStore.Show(old(notifications.State()), savedMessage, None)
    {
      isSaving := false;
      notifications.ShowNotification(savedMessage, None);
      values := data;
      baseline := data;
    }

    /**
     * The whole save of the form's values: the store and the remote hold
     * what was typed, and afterwards the form is clean, so Save is disabled
     * until the next edit.
     */
    method OnSubmit(store: SettingsStore.Store, gw: Api.Gateway,
                    notifications: NotificationStore.Store, savedMessage: string)
      modifies this, store, gw, notifications
      ensures store.settings == old(values) && store.theme == old(store.theme)
      ensures gw.tenantSettings == RemoteRecord(old(values), old(store.settings))
      ensures gw.users == old(gw.users) && gw.roles == old(gw.roles)
      ensures gw.auditLogs == old(gw.auditLogs) && gw.files == old(gw.files)
      ensures notifications.State() == NotificationStore.Show(old(notifications.State()), savedMessage, None)
      ensures !isSaving && values == old(values) && baseline == old(values) && is2FAModalOpen == old(is2FAModalOpen)
      ensures !IsDirty() && SaveDisabled(IsDirty(), isSaving)
    {
      var data := values;
      BeginSave(store, gw);
      FinishSave(data, notifications, savedMessage);
    }

    /** `handleReset`: the store returns to the defaults only when the user confirms. */
    method HandleReset(confirmed: bool, store: SettingsStore.Store)
      modifies store
      ensures confirmed ==> store.settings == SettingsStore.Defaults(old(store.settings).tenantId)
      ensures !confirmed ==> store.settings == old(store.settings)
      ensures store.theme == old(store.theme)
    {
      if confirmed {
        store.ResetToDefaults();
      }
    }

    /** `handle2FAToggle`: switching off clears the flag; switching on only opens the dialog. */
    method Handle2FAToggle(checked: bool)
      modifies this
      ensures checked ==> is2FAModalOpen && values == old(values)
      ensures !checked ==> values == old(values).(enforce2FA := false) && is2FAModalOpen == old(is2FAModalOpen)
      ensures baseline == old(baseline) && isSaving == old(isSaving)
    {
      if checked {
        is2FAModalOpen := true;
      } else {
        values := values.(enforce2FA := false);
      }
    }

    /** The dialog's `onSuccess`: the flag is set, the dialog closes, and the message shows. */
    method On2FASuccess(notifications: NotificationStore.Store, enabledMessage: string)
      modifies this, notifications
      ensures values == old(values).(enforce2FA := true) && !is2FAModalOpen
      ensures baseline == old(baseline) && isSaving == old(isSaving)
      ensures notifications.State() == NotificationStore.Show(old(notifications.State()), enabledMessage, None)
    {
      values := values.(enforce2FA := true);
      is2FAModalOpen := false;
      notifications.ShowNotification(enabledMessage, None);
    }

    /** The dialog's `onClose`. */
    method On2FAClose()
      modifies this
      ensures !is2FAModalOpen && values == old(values) && baseline == old(baseline) && isSaving == old(isSaving)
    {
      is2FAModalOpen := false;
    }

    /** `handleFileUpload`: when a file was chosen, its data URL goes into that one store field. */
    method HandleFileUpload(field: UploadField, file: Option<string>, store: SettingsStore.Store)
      modifies store
      ensures file.None? ==> store.settings == old(store.settings)
      ensures file.Some? && field == LogoField ==> store.settings == old(store.settings).(logoUrl := Some(file.value))
      ensures file.Some? && field == FaviconField ==> store.settings == old(store.settings).(faviconUrl := Some(file.value))
      ensures store.theme == old(store.theme)
    {
      if file.Some? {
        store.SetSettings(UploadPatch(field, file.value));
        UploadWritesOneField(old(store.settings), field, file.value);
      }
    }
  }
}
