# Colloki admin console: a Dafny model of its state-holding core

This project models the logic of a multi-tenant admin console written in
TypeScript and React. Almost all of the console is markup. What is left is a
set of small deterministic pieces:

- the role-based permission check and the sidebar's visibility rules;
- three client stores: tenant settings and theme, the auth session, and the notification banner;
- the in-memory mock gateway that stands in for the backend;
- the audit-log filter and CSV export;
- the translation lookup;
- the colour parser of the theme effect;
- the state rules of the settings forms, the roles dialog, the two-factor dialog and the two four-step wizards.

Each source file is one Dafny module (`Builtins` holds the JavaScript built-ins
the others use):

| module | source file | form |
|---|---|---|
| `Types` | types.ts | datatypes |
| `Rbac` | hooks/useRbac.ts | functions and lemmas |
| `Sidebar` | components/Sidebar.tsx | recursive functions, a loop method, class `SidebarState` |
| `SettingsStore` | store/settingsStore.ts | merge functions, class `Store` |
| `AuthStore` | store/authStore.ts | session functions, class `Store` |
| `NotificationStore` | store/notificationStore.ts | banner functions, class `Store` |
| `Api` | services/api.ts | seed data, class `Gateway` over sequence fields |
| `AuditLogs` | pages/security/AuditLogs.tsx | filter and CSV functions, class `AuditLogView` |
| `Translation` | context/TranslationContext.tsx | lookup functions, loop method `T` |
| `App` | App.tsx | `HexToRgb`, class `DocumentRoot` |
| `SettingsPage` | pages/Settings.tsx | tab and Save rules, class `SettingsForm` |
| `RolesPage` | pages/security/Roles.tsx | check-box functions, class `Page` |
| `TwoFactor` | components/TwoFactorAuthModal.tsx | code predicate, class `Modal` |
| `WizardSteps` | the step clamp both wizards share | functions |
| `IntegrationWizard` | components/IntegrationWizard.tsx | class `Wizard` |
| `ChannelConfiguration` | pages/ChannelConfiguration.tsx | toggle functions, class `ChannelConfigurationPage` |

Several inputs are parameters rather than data:

- The catalog of roles, the signed-in user, the navigation tree, the current pathname and the translation tables are arguments.
- Date parsing is a function `instant: string -> Option<int>`. `None` stands for an Invalid Date, and every comparison with it is false, as in JavaScript.
- Clock readings, such as the id stamp and the creation time of a new user, are arguments of `Api.Gateway.CreateUser`.
- The browser's confirm dialog is a boolean argument. A chosen file is an `Option` of its data URL.
- Translated messages passed to the notification store are string arguments.

The model follows the code in these less obvious behaviours:

- Permission checks use OR for every item, leaves included. No leaf requires all of its permissions.
- A role's `permissions` is an ordered list that may repeat entries, not a set.
- A System Admin is granted everything only when a role of that name is in the catalog. The catalog lookup comes before the bypass.
- `resetToDefaults` keeps `theme` as well as `tenantId`.
- A settings save sends the remote the submitted form data, not the store record. Its `tenantId`, `logoUrl` and `faviconUrl` come from the store as it was before the save.
- The gateway has no error results. Unknown ids are silent no-ops, and every delete reports success.
- There is no fetch operation for tenant settings. The no-op round trip is stated as `SettingsStore.MergeFull`: merging a complete record over any record gives that record.

The `type` field of a tenant file is called `mimeType`, because `type` is a Dafny keyword.

## Model

| member | source | states |
|---|---|---|
| Types.PermissionCatalog | types.ts:9-29 | There are exactly twelve permissions, every permission is in the list, and their string tags are pairwise distinct. |
| Rbac.FindRole | hooks/useRbac.ts:13 | The lookup fails iff no role in the catalog has the name. When it succeeds, the result is the first role with that name. |
| Rbac.SomeGranted | hooks/useRbac.ts:21 | True iff some required permission appears in the granted list. |
| Rbac.HasPermission | hooks/useRbac.ts:10-22 | A grant needs a signed-in user whose role is in the catalog. A non-System-Admin grant needs one required permission listed in that role. A System Admin with a catalog role is always granted. |
| Rbac.NoUserIsRefused | hooks/useRbac.ts:11 | With no user, every requirement is refused. |
| Rbac.UnknownRoleIsRefused | hooks/useRbac.ts:13-14 | A user whose role name is not in the catalog is refused everything. |
| Rbac.SystemAdminBypass | hooks/useRbac.ts:16 | A System Admin whose role is in the catalog is granted every requirement, including the empty list. |
| Rbac.ScalarIsSingletonList | hooks/useRbac.ts:18 | A single permission is decided exactly as the one-element list. |
| Rbac.OtherRolesNeedOneListed | hooks/useRbac.ts:21 | For any other role the result is true iff one required permission is listed in the role. The empty list is refused. |
| Rbac.GrantIsMonotone | hooks/useRbac.ts:21 | Adding permissions to the user's role never turns a grant into a refusal. |
| Sidebar.Render | components/Sidebar.tsx:40-91 | An item renders iff the user passes its own requirement, and a rendered item keeps its title key and requirement. |
| Sidebar.RenderAll | components/Sidebar.tsx:71-73 | A rendered list is no longer than its items, and every entry in it passes its requirement. Every item that renders appears in it. |
| Sidebar.ShownIsGranted | components/Sidebar.tsx:40-91 | Every rendered item, at any depth, passes its own permission check. |
| Sidebar.AllShownGranted | components/Sidebar.tsx:71-73 | The same holds for every item of a rendered list. |
| Sidebar.HiddenMenuHidesChildren | components/Sidebar.tsx:45-46 | A parent that fails its check renders nothing, children included. |
| Sidebar.LeafShownIff | components/Sidebar.tsx:80 | A leaf is rendered iff it passes its permission check. |
| Sidebar.MenuShownWithoutChildren | components/Sidebar.tsx:45-77 | A parent that passes its check is rendered even when none of its children do. |
| Sidebar.NoChildShown | components/Sidebar.tsx:71-73 | A list of items that all fail their checks renders empty. |
| Sidebar.ChildrenOnlyWhenOpen | components/Sidebar.tsx:69-74 | A rendered parent shows children only while its menu is open; then they are its children filtered by the same rule. |
| Sidebar.ShownChildrenComeFromItems | components/Sidebar.tsx:71-73 | A rendered list is no longer than its items. Something is in it iff some item renders as it. |
| Sidebar.RenderAllAppend | components/Sidebar.tsx:71-73 | Rendering a concatenated list renders each part in turn. So shown items keep the list order, and an item listed twice is shown twice. |
| Sidebar.RenderAllOne | components/Sidebar.tsx:71-73 | A one-item list gives that item's rendering, or nothing if it is hidden. |
| Sidebar.Toggled | components/Sidebar.tsx:32-34 | Toggling flips exactly the named entry and keeps every other entry. |
| Sidebar.ToggleTwice | components/Sidebar.tsx:32-34 | Toggling twice restores every open flag, and restores the map itself when the key was present. |
| Sidebar.InitialOpenMenus | components/Sidebar.tsx:21-30 | The loop's map has exactly the keys of top-level parents with an active child, each mapped to true. |
| Sidebar.ChildActive | components/Sidebar.tsx:17-19 | The loop's answer equals the predicate "some child's path is a prefix of the pathname". |
| Sidebar.SidebarState.constructor | components/Sidebar.tsx:15 | The open map starts empty. |
| Sidebar.SidebarState.Mount | components/Sidebar.tsx:21-30 | After mounting, the map's keys are exactly the top-level parents with an active child, each set to open, so a menu is open iff it is one of them. |
| Sidebar.SidebarState.ToggleMenu | components/Sidebar.tsx:32-34 | The map becomes the toggled map. |
| Sidebar.ReplaceFirstSpace | components/Sidebar.tsx:59-60 | Only the first space is replaced by a line break; a title without a space is unchanged. |
| Sidebar.MenuTitle | components/Sidebar.tsx:59-60 | Only the Common Settings title changes. If it has a space, its first space is replaced by `<br />` and nothing else changes. Every other title, and one without a space, is unchanged. |
| SettingsStore.Flip | store/settingsStore.ts:41 | The theme always changes. |
| SettingsStore.FlipTwice | store/settingsStore.ts:41 | Flipping twice is the identity. |
| SettingsStore.Merge | store/settingsStore.ts:39 | An empty patch changes nothing. The tenant id survives a patch that does not name it. A patched `notifications` replaces the old one whole. |
| SettingsStore.MergeEmpty | store/settingsStore.ts:39 | Merging an empty patch changes nothing. |
| SettingsStore.MergeFull | store/settingsStore.ts:39 | Merging a complete record over any record gives that record. |
| SettingsStore.MergeTwice | store/settingsStore.ts:39 | Two merges equal one merge of the combined patch, the later field winning. |
| SettingsStore.MergeIdempotent | store/settingsStore.ts:39 | Merging the same patch twice equals merging it once. |
| SettingsStore.MergeCanChangeTenant | store/settingsStore.ts:7 | A patch can overwrite `tenantId`, and then changes nothing else. |
| SettingsStore.MergeIsShallow | store/settingsStore.ts:39 | A supplied `notifications` replaces the whole sub-record. |
| SettingsStore.MergeOneColor | store/settingsStore.ts:39 | Setting only the primary colour changes that field and nothing else. |
| SettingsStore.Defaults | store/settingsStore.ts:12-31 | The default table with the given tenant id. |
| SettingsStore.Reset | store/settingsStore.ts:40 | A reset gives the default record for the same tenant id. |
| SettingsStore.ResetGivesDefaults | store/settingsStore.ts:40 | Reset gives exactly the defaults, keeping the tenant id. |
| SettingsStore.ResetIdempotent | store/settingsStore.ts:40 | Resetting twice equals resetting once. |
| SettingsStore.ResetForgetsAllButTenant | store/settingsStore.ts:40 | Two records reset to the same record iff they have the same tenant id. |
| SettingsStore.Store.constructor | store/settingsStore.ts:35-38 | The store starts at the defaults for `tenant-123`, with the light theme. |
| SettingsStore.Store.SetSettings | store/settingsStore.ts:39 | The settings become the merge of the old settings and the patch. The theme is unchanged. |
| SettingsStore.Store.ResetToDefaults | store/settingsStore.ts:40 | The settings become the defaults for the old tenant id. The theme is unchanged. |
| SettingsStore.Store.ToggleTheme | store/settingsStore.ts:41 | The theme flips. The settings are unchanged. |
| AuthStore.AfterLogin | store/authStore.ts:30 | After login the user is stored, the session counts as signed in exactly when a user is stored, and the tenant id is the user's. |
| AuthStore.AfterLogout | store/authStore.ts:31 | After logout no user is stored, and the session is consistent with no tenant. |
| AuthStore.AfterSetUser | store/authStore.ts:32 | `setUser` stores the user, and keeps the signed-in flag and the tenant id. |
| AuthStore.LoginLogoutConsistent | store/authStore.ts:30-31 | After login or logout, signed-in holds iff a user is present, and the tenant follows the user. Logout always gives the initial session. |
| AuthStore.SetUserKeepsSessionTenant | store/authStore.ts:32 | `setUser` changes only the user. |
| AuthStore.SetUserWhileSignedOutBreaksConsistency | store/authStore.ts:32 | From the signed-out session, `setUser` leaves a user present while signed out. |
| AuthStore.SetUserCanDivergeTenant | store/authStore.ts:32 | `setUser` with another tenant's user leaves the session tenant differing from the user's. |
| AuthStore.GuardedRunStaysConsistent | store/authStore.ts:30-32 | Any run of calls that uses `setUser` only while signed in keeps "signed in iff user present". |
| AuthStore.LoginLogoutRunTracksTenant | store/authStore.ts:30-31 | Any run of logins and logouts keeps the session tenant equal to the user's. |
| AuthStore.Store.constructor | store/authStore.ts:27-29 | Starts signed out, with no user and no tenant. |
| AuthStore.Store.Login | store/authStore.ts:30 | The session becomes signed in, with the user and the user's tenant. |
| AuthStore.Store.Logout | store/authStore.ts:31 | The session becomes the initial one. |
| AuthStore.Store.SetUser | store/authStore.ts:32 | Only the user field changes. |
| NotificationStore.Show | store/notificationStore.ts:15 | The banner shows the message. The kind is the one given, or success when none is given. |
| NotificationStore.Hide | store/notificationStore.ts:16 | The message is cleared, and the kind is kept. |
| NotificationStore.ShowOverwrites | store/notificationStore.ts:15 | Showing replaces any earlier banner: the result does not depend on the old state. |
| NotificationStore.ShowDefaultsToSuccess | store/notificationStore.ts:15 | Without a kind, the banner is a success; with one, it is that kind. |
| NotificationStore.HideKeepsKind | store/notificationStore.ts:16 | Hiding clears the message and keeps the kind, and is idempotent. |
| NotificationStore.Store.constructor | store/notificationStore.ts:13-14 | Starts with no message and the success kind. |
| NotificationStore.Store.ShowNotification | store/notificationStore.ts:15 | The banner becomes the shown one. |
| NotificationStore.Store.HideNotification | store/notificationStore.ts:16 | The banner becomes the hidden one. |
| Api.ReplaceById | services/api.ts:70 | Same length. Entries with the new record's id are replaced by it, and all others are unchanged. |
| Api.ReplaceKeepsKeys | services/api.ts:70 | A replace keeps every position's id. |
| Api.ReplaceUnknownIsIdentity | services/api.ts:70 | Replacing an id that is not present changes nothing. |
| Api.ReplaceIdempotent | services/api.ts:81 | Replacing twice with the same record equals replacing once. |
| Api.RemoveById | services/api.ts:74 | An entry remains iff it was there and has another id. |
| Api.RemoveSnoc | services/api.ts:74 | The delete of the empty list is empty. One more entry at the end stays there exactly when its id differs. This fixes the result completely. |
| Api.RemoveKeepsOthersInOrder | services/api.ts:91 | No remaining entry has the id, and the rest keep their order. Every entry with another id keeps its number of copies; the id's entries have none left. |
| Api.RemoveUnknownIsIdentity | services/api.ts:73-76 | Deleting an unknown id leaves the collection unchanged. |
| Api.UpdatedRoleIsFound | services/api.ts:80-83 | After a role update, the permission check's lookup finds the new record. |
| Api.UpdatedRoleDecidesPermission | services/api.ts:80-83 | After a role update, permission checks for users of that role are decided by the new list. |
| Api.SeedCatalog | services/api.ts:10-14 | In the seed catalog, Tenant Admin and System Admin list every permission. User lists exactly dashboard, files and own profile. |
| Api.SeedUserRole | services/api.ts:10-14 | A seeded User may view the dashboard and files, but may not manage users, roles or view audit logs. |
| Api.NewUser | services/api.ts:57-65 | The new user has the given name, email, role and creation time, tenant `tenant-123`, and an id that starts with `user-` and has more after it. |
| Api.NewUserId | services/api.ts:57-65 | A new user's id is `user-` followed by the decimal digits of the stamp, which read back as the stamp. Its tenant is `tenant-123`. |
| Api.Gateway.constructor | services/api.ts:4-49 | The collections start as the seed data. |
| Api.Gateway.FetchUsers | services/api.ts:55 | Returns the current users. |
| Api.Gateway.CreateUser | services/api.ts:56-68 | Exactly one new user is appended. Nothing else changes. |
| Api.Gateway.UpdateUser | services/api.ts:69-72 | Users become the replace-by-id result, and the record is returned. Nothing else changes. |
| Api.Gateway.DeleteUser | services/api.ts:73-76 | Users become the remove-by-id result, and success is reported. Nothing else changes. |
| Api.Gateway.FetchRoles | services/api.ts:79 | Returns the current roles. |
| Api.Gateway.UpdateRole | services/api.ts:80-83 | Roles become the replace-by-id result. Nothing else changes. |
| Api.Gateway.FetchAuditLogs | services/api.ts:86 | Returns the current audit log. |
| Api.Gateway.FetchFiles | services/api.ts:89 | Returns the current files. |
| Api.Gateway.DeleteFile | services/api.ts:90-93 | Files become the remove-by-id result, and success is reported. Nothing else changes. |
| Api.Gateway.UpdateTenantSettings | services/api.ts:96-99 | The record becomes the shallow merge with the patch and is returned. Nothing else changes. |
| AuditLogs.WithFieldChangesOneKey | pages/security/AuditLogs.tsx:23-25 | A filter change sets the named key and keeps the other three. |
| AuditLogs.Keep | pages/security/AuditLogs.tsx:28-39 | With no filter set every entry is kept. A kept entry matches the user filter exactly and contains the action filter, ignoring case. |
| AuditLogs.FilterLogs | pages/security/AuditLogs.tsx:27-40 | The result is a subsequence of the logs, and holds exactly the logs that meet every criterion. |
| AuditLogs.NoFiltersKeepAll | pages/security/AuditLogs.tsx:9 | With all four criteria empty, every log is kept, in order. |
| AuditLogs.StartBoundIsInclusive | pages/security/AuditLogs.tsx:30-33 | A valid start bound drops exactly the strictly earlier logs. |
| AuditLogs.EndBoundIsInclusive | pages/security/AuditLogs.tsx:31-34 | A valid end bound drops exactly the strictly later logs. |
| AuditLogs.InvalidBoundIsIgnored | pages/security/AuditLogs.tsx:33-34 | A bound that does not parse constrains nothing. |
| AuditLogs.UserIsExactId | pages/security/AuditLogs.tsx:35 | The user criterion is exact equality with the log's user id. |
| AuditLogs.ActionIsCaseInsensitiveSubstring | pages/security/AuditLogs.tsx:36 | The action criterion is substring containment after lower-casing both sides. |
| AuditLogs.LoginFilterExample | pages/security/AuditLogs.tsx:36 | "login" keeps `USER_LOGIN` and drops `FILE_UPLOAD`. |
| AuditLogs.StartAfterAllLeavesNothing | pages/security/AuditLogs.tsx:33 | A start bound later than every log leaves nothing. |
| AuditLogs.FilterLogsAppend | pages/security/AuditLogs.tsx:28 | Filtering distributes over concatenation. |
| AuditLogs.EscapeQuotes | pages/security/AuditLogs.tsx:48 | Escaping never shortens the text. |
| AuditLogs.EscapeRoundTrip | pages/security/AuditLogs.tsx:48 | Undoubling the quotes recovers the original details. |
| AuditLogs.EscapeAvoids | pages/security/AuditLogs.tsx:48 | Escaping adds no character other than quotes. |
| AuditLogs.EscapeWithoutQuotes | pages/security/AuditLogs.tsx:48 | Text without quotes is unchanged. |
| AuditLogs.QuoteField | pages/security/AuditLogs.tsx:48 | The field starts and ends with a double quote. |
| AuditLogs.QuoteFieldRoundTrip | pages/security/AuditLogs.tsx:48 | Stripping the outer quotes and undoubling gives back the details. |
| AuditLogs.QuoteFieldExample | pages/security/AuditLogs.tsx:48 | `say "hi"` becomes `"say ""hi"""`. |
| AuditLogs.HeaderIsJoinedNames | pages/security/AuditLogs.tsx:43 | The header is the four column names joined by commas. |
| AuditLogs.Rows | pages/security/AuditLogs.tsx:44-49 | One row per log, in order. |
| AuditLogs.ExportCsv | pages/security/AuditLogs.tsx:51 | The CSV starts with the header, and is only the header when there are no logs. |
| AuditLogs.CsvAppend | pages/security/AuditLogs.tsx:51 | One more log adds a newline and its row at the end. |
| AuditLogs.RowIsOneLine | pages/security/AuditLogs.tsx:44-49 | A row of newline-free fields has no newline. |
| AuditLogs.CsvLines | pages/security/AuditLogs.tsx:50-51 | Splitting the CSV on newlines gives the header and then the rows. |
| AuditLogs.RowCells | pages/security/AuditLogs.tsx:44-49 | For comma-free fields, splitting a row on commas gives the raw timestamp, user name and action, then the quoted details. |
| AuditLogs.AuditLogView.constructor | pages/security/AuditLogs.tsx:9 | Starts with no logs and empty filters. |
| AuditLogs.AuditLogView.Loaded | pages/security/AuditLogs.tsx:15-21 | The fetched logs replace the list. The filters are kept. |
| AuditLogs.AuditLogView.HandleFilterChange | pages/security/AuditLogs.tsx:23-25 | Only the named filter key changes. |
| AuditLogs.AuditLogView.ExportToCsv | pages/security/AuditLogs.tsx:42-51 | The text is the CSV of the filtered logs and starts with the header. |
| Translation.CurrentLang | context/TranslationContext.tsx:35 | The stored code if it names one of the six tables, else English. |
| Translation.CurrentLangRoundTrip | context/TranslationContext.tsx:13-20 | Each language's code selects that language, and an unknown code selects English. |
| Translation.GetNestedValue | context/TranslationContext.tsx:29-31 | A path without a dot is one lookup step in the given table. |
| Translation.KeyWalksItsSegments | context/TranslationContext.tsx:29-31 | Take segments that contain no dot, join them with dots, and look the key up. The result is the walk through the tables, one segment at a time. |
| Translation.WalkAppend | context/TranslationContext.tsx:30 | Walking a path is walking its first part, then the rest. |
| Translation.WalkFromNothing | context/TranslationContext.tsx:30 | Once undefined, the lookup stays undefined. |
| Translation.MissingSegmentIsUndefined | context/TranslationContext.tsx:29-31 | A missing segment makes the whole lookup undefined. |
| Translation.TwoSegmentLookup | context/TranslationContext.tsx:29-31 | `a.b` finds the text stored under `b` inside `a`. |
| Translation.Resolve | context/TranslationContext.tsx:38-43 | The result is either nothing or a truthy value. |
| Translation.ResolveFallsBack | context/TranslationContext.tsx:38-47 | A truthy active translation wins. Otherwise a truthy English one is used. Nothing is found iff neither is truthy. |
| Translation.Placeholder | context/TranslationContext.tsx:51 | A placeholder is at least four characters and opens with a brace. |
| Translation.ReplaceAll | context/TranslationContext.tsx:52 | A replacement as long as the pattern keeps the length, and replacing the pattern by itself gives the text back. |
| Translation.ReplaceAfterPlainText | context/TranslationContext.tsx:52 | Replacing all occurrences skips text that cannot start the pattern and continues after the match. |
| Translation.ReplaceInPlainText | context/TranslationContext.tsx:52 | Text that cannot start the pattern is unchanged. |
| Translation.ApplyOptions | context/TranslationContext.tsx:50-53 | Options whose every value is its own placeholder leave the text unchanged. |
| Translation.ApplyOptionsAppend | context/TranslationContext.tsx:50-53 | Options are applied one key after another. |
| Translation.NoPlaceholderIsUnaffected | context/TranslationContext.tsx:50-53 | Text without a brace is unaffected by any options. |
| Translation.PlaceholderTwice | context/TranslationContext.tsx:50-53 | Every occurrence of a placeholder is replaced, not just the first. |
| Translation.Translate | context/TranslationContext.tsx:37-57 | A key found nowhere gives the key itself. A found value without options comes back as found. A found text with options comes back with `ApplyOptions` of the options. The call fails with a type error exactly when the key names a nested table and options are given. |
| Translation.MissingKeyIsReturned | context/TranslationContext.tsx:45-47 | When neither table has a truthy value, the key itself is returned. |
| Translation.NoOptionsNoChange | context/TranslationContext.tsx:49 | Without options, the found text is returned unmodified. |
| Translation.PlainTextIgnoresOptions | context/TranslationContext.tsx:49-56 | Found text without placeholders is returned unmodified whatever the options. |
| Translation.T | context/TranslationContext.tsx:37-57 | The loop over the option keys computes the reference result of `Translate`. |
| App.HexValue | App.tsx:36 | A hex digit's value is below 16. |
| App.Byte | App.tsx:37 | Two hex digits give a value below 256. |
| App.HexToRgb | App.tsx:35-38 | A result exists iff the input is six hex digits with an optional leading `#`, in either case. |
| App.HexToRgbReadsBack | App.tsx:37 | A result splits on spaces into exactly three decimal numbers, the byte values of the digit pairs. |
| App.DefaultPrimaryExample | App.tsx:36-37 | `#3b82f6`, `3b82f6` and `#3B82F6` all give `59 130 246`. |
| App.RejectedExamples | App.tsx:36-37 | Shorthand, eight digits, a doubled `#`, a non-hex digit and a leading space are all rejected. |
| App.DocumentRoot.constructor | App.tsx:28 | The root starts with the given class and variables. |
| App.DocumentRoot.ApplyTheme | App.tsx:29-44 | `dark` holds iff the theme is dark. Each colour variable takes the parsed colour, and keeps its old value when the colour does not parse. |
| SettingsPage.ActiveTab | pages/Settings.tsx:65 | The tab named is the route's, or `branding` when it is missing or empty. |
| SettingsPage.ActiveTabDefaultsToBranding | pages/Settings.tsx:65-95 | No tab or an empty tab gives branding, and every known tab's name selects that tab. |
| SettingsPage.SaveDisabled | pages/Settings.tsx:130 | Save is disabled whenever the form is clean, and whenever a save is running. |
| SettingsPage.SaveEnabledIff | pages/Settings.tsx:130 | Save is enabled iff the form is dirty and no save is running. |
| SettingsPage.RemoteRecord | pages/Settings.tsx:112 | The remote record is the data with tenant id, logo and favicon from the store, every other field from the data. |
| SettingsPage.UploadPatch | pages/Settings.tsx:146 | The patch sets the logo exactly for a logo upload, the favicon exactly for a favicon upload, and no other field. |
| SettingsPage.UploadWritesOneField | pages/Settings.tsx:146 | An upload's patch changes only its own field. |
| SettingsPage.SettingsForm.constructor | pages/Settings.tsx:101 | The form starts at the store's values, clean and not saving. |
| SettingsPage.SettingsForm.SyncFromStore | pages/Settings.tsx:103-105 | A store change resets values and baseline to the store's settings, so the form is clean. |
| SettingsPage.SettingsForm.Edit | pages/Settings.tsx:164-219 | An edit sets the values. The form is dirty iff they differ from the baseline. |
| SettingsPage.SettingsForm.BeginSave | pages/Settings.tsx:110-112 | Saving starts, which disables Save. The store takes the form's current values. The remote takes those values with three fields from the store as it was before. |
| SettingsPage.SettingsForm.FinishSave | pages/Settings.tsx:113-115 | Saving ends, the saved message shows, and values and baseline become the data. |
| SettingsPage.SettingsForm.OnSubmit | pages/Settings.tsx:109-116 | The save submits what the inputs hold: afterwards the store holds those values and the remote holds them with the store's tenant id, logo and favicon. The message shows, and the form is clean with Save disabled. |
| SettingsPage.SettingsForm.HandleReset | pages/Settings.tsx:152-156 | The store returns to the defaults iff the user confirmed. The theme is unchanged. |
| SettingsPage.SettingsForm.Handle2FAToggle | pages/Settings.tsx:262-265 | Switching off clears the 2FA flag. Switching on only opens the dialog. |
| SettingsPage.SettingsForm.On2FASuccess | pages/Settings.tsx:298-302 | The flag becomes true, the dialog closes, and the message shows. |
| SettingsPage.SettingsForm.On2FAClose | pages/Settings.tsx:297 | Cancelling closes the dialog and changes no value. |
| SettingsPage.SettingsForm.HandleFileUpload | pages/Settings.tsx:142-150 | A chosen file's data URL replaces only the logo or only the favicon. Without a file nothing changes. |
| RolesPage.GroupsCoverEveryPermissionOnce | pages/security/Roles.tsx:7-15 | The groups' boxes list the twelve permissions in declaration order, each exactly once. |
| RolesPage.CheckboxChange | pages/security/Roles.tsx:109-114 | The permission is present iff its box was checked. Checking appends it at the end. |
| RolesPage.CheckboxChangeKeepsOthers | pages/security/Roles.tsx:110-113 | Every other permission keeps its number of copies. Unchecking keeps the rest in order and leaves no copy of the clicked one. |
| RolesPage.CheckThenUncheck | pages/security/Roles.tsx:110-113 | Checking then unchecking an absent permission restores the list. |
| RolesPage.UncheckTwice | pages/security/Roles.tsx:112 | Unchecking twice equals unchecking once. |
| RolesPage.Label | pages/security/Roles.tsx:116 | The label has the tag's length, with each `:` and `_` replaced by a space. |
| RolesPage.LabelIsClean | pages/security/Roles.tsx:116 | A label has no `:` or `_`, and relabelling changes nothing. |
| RolesPage.LabelExamples | pages/security/Roles.tsx:116 | `view:users` shows as `view users`. The hyphens of the tags stay. |
| RolesPage.CountLabel | pages/security/Roles.tsx:78 | The count cell ends with ` permissions`, after at least one character. |
| RolesPage.CountLabelReadsBack | pages/security/Roles.tsx:78 | The count cell's digits read back as the length of the role's list. |
| RolesPage.Page.constructor | pages/security/Roles.tsx:18-21 | Starts loading, with no roles and the dialog closed. |
| RolesPage.Page.LoadRoles | pages/security/Roles.tsx:30-35 | The table shows the gateway's roles, and loading ends. |
| RolesPage.Page.OpenModal | pages/security/Roles.tsx:37-42 | The dialog opens on the role, starting from its permissions. |
| RolesPage.Page.CloseModal | pages/security/Roles.tsx:44-48 | The dialog closes, the editing role is cleared and the form is reset. |
| RolesPage.Page.ClickBox | pages/security/Roles.tsx:108-114 | A click flips the box, so `checked` is the permission's absence. The form's list becomes the check-box result, and the form still belongs to the edited role. |
| RolesPage.Page.OnSubmit | pages/security/Roles.tsx:50-56 | With a role being edited, the gateway gets that role with its permissions replaced by the form's current list, the one the clicks built. With none, the gateway is untouched. Then the dialog closes and the table reloads. |
| TwoFactor.ValidCodesAreSixDigitNumbers | components/TwoFactorAuthModal.tsx:16 | A code is accepted iff it is the six-digit, zero-padded rendering of a number below a million. |
| TwoFactor.FixedDigitsOfValue | components/TwoFactorAuthModal.tsx:16 | Rendering a digit string's value at its own width gives the string back. |
| TwoFactor.FixedDigitsReadBack | components/TwoFactorAuthModal.tsx:16 | A fixed-width rendering reads back as the number modulo the width's power of ten. |
| TwoFactor.CodeExamples | components/TwoFactorAuthModal.tsx:16 | `123456` and `000000` pass. Five digits, seven digits and a letter fail. |
| TwoFactor.Modal.constructor | components/TwoFactorAuthModal.tsx:11-12 | Code and error both start empty. |
| TwoFactor.Modal.OnChange | components/TwoFactorAuthModal.tsx:41-44 | An edit replaces the code and clears the error. |
| TwoFactor.Modal.HandleVerify | components/TwoFactorAuthModal.tsx:14-21 | Success iff the code is valid. A failure sets the fixed error message. A success leaves no error showing. |
| WizardSteps.Next | components/IntegrationWizard.tsx:31 | Next adds one below the last step and stays at the last step otherwise. |
| WizardSteps.Prev | components/IntegrationWizard.tsx:32 | Back subtracts one above the first step and stays at the first step otherwise. |
| WizardSteps.MovesStayInRange | pages/ChannelConfiguration.tsx:46-49 | Both moves keep the step in 1..4. Next at 4 and back at 1 are no-ops. |
| WizardSteps.NextPrevUndo | components/IntegrationWizard.tsx:31-32 | Back undoes next below the last step, and next undoes back above the first. |
| WizardSteps.RunStaysInRange | components/IntegrationWizard.tsx:29-32 | Any sequence of presses keeps the step in 1..4. |
| WizardSteps.ThreeNextsReachTheEnd | components/IntegrationWizard.tsx:29-31 | Three or more nexts from the start reach step 4. |
| WizardSteps.FinishOnlyAtTheEnd | pages/ChannelConfiguration.tsx:90-101 | In range, Finish shows iff the step is 4, and never where Back is disabled. |
| IntegrationWizard.ProviderNames | components/IntegrationWizard.tsx:142 | Google Drive and Dropbox show their names. Everything else, no choice included, shows OneDrive. Distinct providers show distinct names. |
| IntegrationWizard.IsNextDisabled | components/IntegrationWizard.tsx:46-49 | Next is disabled only on step 3, and there exactly when the folder is empty. |
| IntegrationWizard.NextDisabledIff | components/IntegrationWizard.tsx:46-49 | Next is disabled iff the step is 3 and the folder is empty. |
| IntegrationWizard.Wizard.constructor | components/IntegrationWizard.tsx:19-24 | Step 1, no provider, folder `Colloki Backups`, daily sync. |
| IntegrationWizard.Wizard.NextStep | components/IntegrationWizard.tsx:31 | The step advances by the clamp and stays in range. The form is kept. |
| IntegrationWizard.Wizard.PrevStep | components/IntegrationWizard.tsx:32 | The step goes back by the clamp and stays in range. The form is kept. |
| IntegrationWizard.Wizard.SelectProvider | components/IntegrationWizard.tsx:34-37 | The provider is stored and the step advances once. Folder and frequency are kept. |
| IntegrationWizard.Wizard.EditFolder | components/IntegrationWizard.tsx:166 | Only the folder changes. |
| IntegrationWizard.Wizard.EditSyncFrequency | components/IntegrationWizard.tsx:174 | Only the sync frequency changes. |
| IntegrationWizard.Wizard.Finish | components/IntegrationWizard.tsx:39-44 | The success message shows. |
| ChannelConfiguration.DefaultForm | pages/ChannelConfiguration.tsx:35-42 | No channels, and the store's primary colour. |
| ChannelConfiguration.Toggle | pages/ChannelConfiguration.tsx:124-127 | The channel is present afterwards iff it was absent before. An absent channel is appended once, at the end. |
| ChannelConfiguration.ToggleKeepsOtherChannel | pages/ChannelConfiguration.tsx:133-136 | The other channel's entries are untouched. |
| ChannelConfiguration.ToggleTwiceFromAbsent | pages/ChannelConfiguration.tsx:124-127 | Toggling twice from absent restores the list. |
| ChannelConfiguration.Sections | pages/ChannelConfiguration.tsx:83-86 | The channel cards show exactly on step 1 and the flow section exactly on step 3. Outside steps 1-4 nothing shows, and steps 2 and 4 show nothing with no channel chosen. |
| ChannelConfiguration.SectionsFollowChannels | pages/ChannelConfiguration.tsx:166-167 | The chat sections show iff chat is chosen, and the WhatsApp ones iff WhatsApp is, on steps 2 and 4. |
| ChannelConfiguration.ChannelConfigurationPage.constructor | pages/ChannelConfiguration.tsx:31-42 | Step 1 and the default form. |
| ChannelConfiguration.ChannelConfigurationPage.NextStep | pages/ChannelConfiguration.tsx:48 | The step advances by the clamp and stays in range. |
| ChannelConfiguration.ChannelConfigurationPage.PrevStep | pages/ChannelConfiguration.tsx:49 | The step goes back by the clamp and stays in range. |
| ChannelConfiguration.ChannelConfigurationPage.ToggleChannel | pages/ChannelConfiguration.tsx:124-136 | The channel list becomes the toggled list. |
| ChannelConfiguration.ChannelConfigurationPage.OnSubmit | pages/ChannelConfiguration.tsx:59-63 | The success message shows. |

## Left out

- Rendering: all JSX, CSS classes, icons, the router and the layouts. Markup-only conditions such as `isModalOpen && editingRole` appear only where they decide state.
- Pages that are markup or glue: the dashboard charts, the auth pages, the profile page and the users page. Their gateway effects are modelled in `Api`.
- Notification fade timers and the flow-list timer of the channel page: they are time and concurrency.
- Persistence of the settings and auth stores to local storage: the model starts from the in-code initial state.
- Asynchrony and latency of the gateway: every call is a synchronous method. A save is split into `BeginSave` and `FinishSave` at the point where the remote call returns.
- Deep copies of gateway results: in Dafny every collection is a value, so a caller can never change what the gateway holds.
- Floating point: file-size formatting and the wizard progress bars.
- The DOM writes of the CSV export: the `data:` prefix, `encodeURI` and the download link. The theme effect writes to a model of the root's class and variables.
- `window.confirm`, `FileReader` and the form library's internals: a confirm is a boolean, a read file is its data URL, and "dirty" is values different from the baseline.
- The form library's field validation, such as the session timeout's `min: 5` and the 2FA input's `maxLength`: the model handles any submitted value.
- Translation.Placeholder: option keys are taken to be plain identifiers (letters, digits, `_`). Keys with regular-expression metacharacters are not modelled. Neither are all-digit keys, whose `{n}` placeholder a non-unicode `RegExp` reads as a repetition count. Replacement values are taken to hold no `$` patterns. Option values are given as strings, so `String(value)` formatting of numbers is not modelled.
- Translation.Translate: option keys are applied in the order given; the integer-first key order of `Object.keys` is not modelled. The `in` test for the language does not see prototype keys. A path step into a string yields undefined, which is weaker than JavaScript's string indexing. A path step into a table finds only the table's own keys, not `Object.prototype` members such as `toString`.
- AuditLogs.ActionIsCaseInsensitiveSubstring: lower-casing covers ASCII letters only, not full Unicode case mapping.
- AuditLogs.QuoteFieldExample: the example is a short string; the verifier unrolls long literal arguments too slowly.
- The `console.log` calls of the wizards and the channel page.
- The `theme` and store functions that the settings form also carries in its values: the store's theme is never changed by a save.
- Menu titles are handed to the sidebar already translated: `Sidebar.MenuTitle` takes the translated text as an argument.
- Which submit button each wizard shows is a predicate (`WizardSteps.ShowsFinish`, `IntegrationWizard.IsNextDisabled`); a disabled button's handler is never called, and the handlers themselves are unguarded, as in the code.
