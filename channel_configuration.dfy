/**
 * The channel configuration page: a four-step form choosing the web chat
 * and WhatsApp channels, their configuration sections, and a preview.
 */
module ChannelConfiguration {
  import opened Builtins
  import opened WizardSteps
  import NotificationStore

  datatype Channel = Chat | WhatsApp

  datatype Branding = Branding(primaryColor: string, headerText: string, avatarUrl: Option<string>)
  datatype WhatsAppConfig = WhatsAppConfig(phoneNumber: string, apiToken: string)
  datatype Flow = Flow(apiKey: string, name: string)

  datatype FormData = FormData(channels: seq<Channel>, branding: Branding,
                               whatsappConfig: WhatsAppConfig, flow: Flow)

  /** The form's default values; the colour is the store's primary colour at mount. */
  function DefaultForm(storePrimaryColor: string): (f: FormData)
    ensures f.channels == [] && f.branding.primaryColor == storePrimaryColor
  {
    FormData([], Branding(storePrimaryColor, "Chat with us!", None),
             WhatsAppConfig("", ""), Flow("", ""))
  }

  /** A channel card's toggle: remove every entry of `c` if one is there, else append `c`. */
  function Toggle(channels: seq<Channel>, c: Channel): (r: seq<Channel>)
    ensures c in r <==> c !in channels
    ensures c !in channels ==> r == channels + [c]
  {
    if c in channels then Filter(channels, x => x != c) else channels + [c]
  }

  /** The entries of the other channel are untouched: dropping `c` from both sides gives the same list. */
  lemma ToggleKeepsOtherChannel(channels: seq<Channel>, c: Channel)
    ensures Filter(Toggle(channels, c), x => x != c) == Filter(channels, x => x != c)
  {
    var keep := x => x != c;
    if c in channels {
      FilterTwice(channels, keep);
    } else {
      FilterAppend(channels, [c], keep);
      assert Filter([c], keep) == [];
      assert Filter(channels, keep) + [] == Filter(channels, keep);
    }
  }

  lemma {:induction false} FilterTwice(xs: seq<Channel>, keep: Channel -> bool)
    ensures Filter(Filter(xs, keep), keep) == Filter(xs, keep)
  {
    var r := Filter(xs, keep);
    assert forall i :: 0 <= i < |r| ==> r[i] in r;
    FilterKeepsAll(r, keep);
  }

  /** Toggling a channel that was absent twice restores the list. */
  lemma ToggleTwiceFromAbsent(channels: seq<Channel>, c: Channel)
    requires c !in channels
    ensures Toggle(Toggle(channels, c), c) == channels
  {
    var keep := x => x != c;
    assert c in channels + [c];
    FilterAppend(channels, [c], keep);
    FilterKeepsAll(channels, keep);
    assert Filter([c], keep) == [];
  }

  /** The parts of the page a step shows. */
  datatype Section =
    | ChannelCards
    | ChatBrandingSection | WhatsAppConfigSection
    | FlowSection
    | ChatPreview | WhatsAppPreview

  function Sections(step: int, channels: seq<Channel>): (r: set<Section>)
    ensures ChannelCards in r <==> step == 1
    ensures FlowSection in r <==> step == 3
    ensures !(1 <= step <= 4) ==> r == {}
    ensures channels == [] && (step == 2 || step == 4) ==> r == {}
  {
    if step == 1 then {ChannelCards}
    else if step == 2 then
      (if Chat in channels then {ChatBrandingSection} else {}) +
      (if WhatsApp in channels then {WhatsAppConfigSection} else {})
    else if step == 3 then {FlowSection}
    else if step == 4 then
      (if Chat in channels then {ChatPreview} else {}) +
      (if WhatsApp in channels then {WhatsAppPreview} else {})
    else {}
  }

  /** The chat sections appear exactly when chat is chosen, the WhatsApp ones exactly when WhatsApp is. */
  lemma SectionsFollowChannels(step: int, channels: seq<Channel>)
    ensures ChatBrandingSection in Sections(step, channels) <==> step == 2 && Chat in channels
    ensures WhatsAppConfigSection in Sections(step, channels) <==> step == 2 && WhatsApp in channels
    ensures ChatPreview in Sections(step, channels) <==> step == 4 && Chat in channels
    ensures WhatsAppPreview in Sections(step, channels) <==> step == 4 && WhatsApp in channels
  {
  }

  /** The page's state. */
  class ChannelConfigurationPage {
    var step: int
    var form: FormData

    predicate Valid()
      reads this
    {
      InRange(step)
    }

    constructor (storePrimaryColor: string)
      ensures step == 1 && form == DefaultForm(storePrimaryColor) && Valid()
    {
      step := 1;
      form := DefaultForm(storePrimaryColor);
    }

    method NextStep()
      requires Valid()
      modifies this
      ensures step == Next(old(step)) && form == old(form) && Valid()
    {
      MovesStayInRange(step);
      step := Next(step);
    }

    method PrevStep()
      requires Valid()
      modifies this
      ensures step == Prev(old(step)) && form == old(form) && Valid()
    {
      MovesStayInRange(step);
      step := Prev(step);
    }

    method ToggleChannel(c: Channel)
      modifies this
      ensures form == old(form).(channels := Toggle(old(form).channels, c)) && step == old(step)
    {
      form := form.(channels := Toggle(form.channels, c));
    }

    /** What the current step shows. */
    function Shown(): set<Section>
      reads this
    {
      Sections(step, form.channels)
    }

    /** `onSubmit`: the success message is shown. */
    method OnSubmit(notifications: NotificationStore.Store, message: string)
      modifies notifications
      ensures notifications.State() == NotificationStore.Show(old(notifications.State()), message, None)
    {
      notifications.ShowNotification(message, None);
    }
  }
}
