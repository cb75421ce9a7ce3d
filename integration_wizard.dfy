/**
 * The storage-integration wizard: a provider choice on step 1, a mock
 * authorisation on step 2, the folder and sync frequency on step 3, and a
 * summary on step 4.
 */
module IntegrationWizard {
  import opened Builtins
  import opened WizardSteps
  import NotificationStore

  datatype Provider = GDrive | Dropbox | OneDrive

  datatype SyncFrequency = Realtime | Daily | Weekly

  datatype FormData = FormData(provider: Option<Provider>, folder: string, syncFrequency: SyncFrequency)

  const InitialForm := FormData(None, "Colloki Backups", Daily)

  /** The provider name shown on steps 2 and 4: anything but the two named ones shows OneDrive. */
  function ProviderName(p: Option<Provider>): string
  {
    if p == Some(GDrive) then "Google Drive"
    else if p == Some(Dropbox) then "Dropbox"
    else "OneDrive"
  }

  /** The three providers show distinct names; no choice shows the same as OneDrive. */
  lemma ProviderNames()
    ensures ProviderName(Some(GDrive)) == "Google Drive"
    ensures ProviderName(Some(Dropbox)) == "Dropbox"
    ensures ProviderName(Some(OneDrive)) == "OneDrive" == ProviderName(None)
    ensures forall p, q :: ProviderName(Some(p)) == ProviderName(Some(q)) ==> p == q
  {
  }

  /** `isNextDisabled()`. */
  predicate IsNextDisabled(step: int, form: FormData): (d: bool)
    ensures d ==> step == 3
    ensures step == 3 ==> (d <==> |form.folder| == 0)
  {
    step == 3 && form.folder == ""
  }

  /** Next is disabled only on step 3, and there exactly when the folder is empty. */
  lemma NextDisabledIff(step: int, form: FormData)
    ensures IsNextDisabled(step, form) <==> step == 3 && |form.folder| == 0
    ensures step != 3 ==> !IsNextDisabled(step, form)
  {
  }

  /** The wizard's state. */
  class Wizard {
    var step: int
    var formData: FormData

    predicate Valid()
      reads this
    {
      InRange(step)
    }

    constructor ()
      ensures step == 1 && formData == InitialForm && Valid()
    {
      step := 1;
      formData := InitialForm;
    }

    method NextStep()
      requires Valid()
      modifies this
      ensures step == Next(old(step)) && formData == old(formData) && Valid()
    {
      MovesStayInRange(step);
      step := Next(step);
    }

    method PrevStep()
      requires Valid()
      modifies this
      ensures step == Prev(old(step)) && formData == old(formData) && Valid()
    {
      MovesStayInRange(step);
      step := Prev(step);
    }

    /** Stores the provider and advances one step; folder and frequency are kept. */
    method SelectProvider(p: Provider)
      requires Valid()
      modifies this
      ensures formData == old(formData).(provider := Some(p))
      ensures formData.folder == old(formData).folder
      ensures formData.syncFrequency == old(formData).syncFrequency
      ensures step == Next(old(step)) && Valid()
    {
      formData := formData.(provider := Some(p));
      NextStep();
    }

    method EditFolder(folder: string)
      modifies this
      ensures formData == old(formData).(folder := folder) && step == old(step)
    {
      formData := formData.(folder := folder);
    }

    method EditSyncFrequency(f: SyncFrequency)
      modifies this
      ensures formData == old(formData).(syncFrequency := f) && step == old(step)
    {
      formData := formData.(syncFrequency := f);
    }

    /** `handleFinish`: the success message is shown; closing the dialog is the caller's. */
    method Finish(notifications: NotificationStore.Store, message: string)
      modifies notifications
      ensures notifications.State() == NotificationStore.Show(old(notifications.State()), message, None)
    {
      notifications.ShowNotification(message, None);
    }
  }
}
