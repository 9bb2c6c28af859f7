/** Printing reports from the legacy interface: the items are joined into one query
    string, the matching report templates are requested, and a template is chosen
    either at once (when only one matches) or through a selection modal, after which
    the print URL is opened. */
module Report {
  import opened Wrappers
  import opened Strings

  /** A report template as the template list returns it; an absent description is
      the empty string. */
  datatype ReportTemplate = ReportTemplate(pk: int, name: string, description: string)

  /** One option of the template select box: its text and its value. */
  datatype ReportOption = ReportOption(text: string, value: string)

  /** The text of a template's option: the name, followed by " - " and the
      description when there is one. */
  function OptionText(r: ReportTemplate): (text: string)
    ensures StartsWith(text, r.name)
    ensures r.description == "" ==> text == r.name
    ensures r.description != "" ==> text[|r.name|..] == " - " + r.description
  {
    if r.description != "" then r.name + " - " + r.description else r.name
  }

  /** The options of the select box, one per template and in the same order, each
      valued with the template's pk. */
  function OptionsOf(reports: seq<ReportTemplate>): (options: seq<ReportOption>)
    ensures |options| == |reports|
    ensures forall i :: 0 <= i < |reports| ==>
      options[i] == ReportOption(OptionText(reports[i]), IntToString(reports[i].pk))
  {
    seq(|reports|, i requires 0 <= i < |reports| =>
      ReportOption(OptionText(reports[i]), IntToString(reports[i].pk)))
  }

  /** A piece of the modal's form: the count of selected items, or the select box. */
  datatype FormPart = ItemsSelectedNotice(count: nat) | ReportSelect(options: seq<ReportOption>)

  const DefaultModal := "#modal-form"
  const SelectTitle := "Select Test Report Template"

  /** What `selectReport` does: hand a template's pk to its success callback at once,
      or open a modal holding the form. */
  datatype Selection = SelectedAtOnce(pk: string)
                     | ModalShown(modal: string, title: string, content: seq<FormPart>)

  /** `selectReport`. A single template is chosen without asking. Otherwise the modal
      (the one named in the options, or the default one) opens with the select box,
      preceded by a notice of how many items are selected when there are any. */
  method SelectReport(reports: seq<ReportTemplate>, items: seq<string>, modal: string)
    returns (sel: Selection)
    ensures |reports| == 1 <==> sel.SelectedAtOnce?
    ensures |reports| == 1 ==> sel.pk == IntToString(reports[0].pk)
    ensures sel.ModalShown? ==>
      && sel.modal == (if modal != "" then modal else DefaultModal)
      && sel.title == SelectTitle
      && (|items| > 0 ==> sel.content == [ItemsSelectedNotice(|items|), ReportSelect(OptionsOf(reports))])
      && (|items| == 0 ==> sel.content == [ReportSelect(OptionsOf(reports))])
  {
    if |reports| == 1 {
      return SelectedAtOnce(IntToString(reports[0].pk));
    }
    var target := if modal != "" then modal else DefaultModal;
    var html: seq<FormPart> := [];
    if |items| > 0 {
      html := html + [ItemsSelectedNotice(|items|)];
    }
    html := html + [ReportSelect(OptionsOf(reports))];
    sel := ModalShown(target, SelectTitle, html);
  }

  /** The URL the chosen template prints from: the template list URL, the pk, and the
      joined items as the `items` query parameter. */
  function PrintUrl(listUrl: string, pk: string, itemString: string): (url: string)
    ensures StartsWith(url, listUrl + pk + "/print/?items=")
    ensures url[|listUrl + pk + "/print/?items="|..] == itemString
  {
    listUrl + pk + "/print/?items=" + itemString
  }

  /** The `items` parameter of the print URL gives back the selected items: splitting
      it on ',' yields the item list, as long as no item itself contains a comma. */
  lemma PrintUrlCarriesItems(listUrl: string, pk: string, items: seq<string>)
    requires |items| > 0
    requires forall i :: 0 <= i < |items| ==> ',' !in items[i]
    ensures Split(PrintUrl(listUrl, pk, Join(items, ","))[|listUrl + pk + "/print/?items="|..], ',')
            == items
  {
    SplitJoin(items, ',');
  }

  /** The query parameters of the template list request. */
  datatype TemplateQuery = TemplateQuery(enabled: bool, modelType: string, items: string)

  /** An alert dialog: title and message. */
  datatype Alert = Alert(title: string, message: string)

  const NoItemsAlert := Alert("Select Items", "No items selected for printing")
  const NoReportsAlert :=
    Alert("No Reports Found", "No report templates found which match the selected items")

  /** The page's side of printing: alerts shown, template requests sent, modals opened
      and closed, and print URLs opened in a new window. */
  class ReportPrinter {
    const listUrl: string
    var alerts: seq<Alert>
    var queries: seq<TemplateQuery>
    var modals: seq<Selection>
    var closedModals: nat
    var windows: seq<string>

    constructor (listUrl: string)
      ensures this.listUrl == listUrl
      ensures alerts == [] && queries == [] && modals == [] && closedModals == 0 && windows == []
    {
      this.listUrl := listUrl;
      alerts := [];
      queries := [];
      modals := [];
      closedModals := 0;
      windows := [];
    }

    /** `printReports`: with no items (missing or empty) only an alert is shown;
        otherwise the enabled templates for the model type are requested, with the
        items joined by ','. */
    method PrintReports(modelType: string, items: Option<seq<string>>)
      modifies this
      ensures items.None? || items.value == [] ==>
        alerts == old(alerts) + [NoItemsAlert] && queries == old(queries)
      ensures items.Some? && items.value != [] ==>
        alerts == old(alerts)
        && queries == old(queries) + [TemplateQuery(true, modelType, Join(items.value, ","))]
      ensures modals == old(modals) && closedModals == old(closedModals) && windows == old(windows)
    {
      if items.None? || items.value == [] {
        alerts := alerts + [NoItemsAlert];
        return;
      }
      var itemString := Join(items.value, ",");
      queries := queries + [TemplateQuery(true, modelType, itemString)];
    }

    /** The success handler of the template request. No template means an alert and
        nothing else; one template opens its print URL at once; several open the
        selection modal. */
    method TemplatesReceived(items: seq<string>, response: seq<ReportTemplate>)
      modifies this
      ensures response == [] ==>
        alerts == old(alerts) + [NoReportsAlert] && modals == old(modals) && windows == old(windows)
      ensures |response| == 1 ==>
        alerts == old(alerts) && modals == old(modals)
        && windows == old(windows) + [PrintUrl(listUrl, IntToString(response[0].pk), Join(items, ","))]
      ensures |response| > 1 ==>
        alerts == old(alerts) && windows == old(windows)
        && modals == old(modals) + [ModalShown(DefaultModal, SelectTitle,
             (if |items| > 0 then [ItemsSelectedNotice(|items|)] else []) + [ReportSelect(OptionsOf(response))])]
      ensures queries == old(queries) && closedModals == old(closedModals)
    {
      if |response| == 0 {
        alerts := alerts + [NoReportsAlert];
        return;
      }
      var itemString := Join(items, ",");
      var sel := SelectReport(response, items, "");
      if sel.SelectedAtOnce? {
        windows := windows + [PrintUrl(listUrl, sel.pk, itemString)];
      } else {
        if |items| > 0 {
          assert sel.content == [ItemsSelectedNotice(|items|)] + [ReportSelect(OptionsOf(response))];
        } else {
          assert sel.content == [] + [ReportSelect(OptionsOf(response))];
        }
        modals := modals + [sel];
      }
    }

    /** Submitting the selection modal: the modal closes and the chosen template's
        print URL opens. `chosen` is the value of the select box. */
    method ModalSubmitted(items: seq<string>, chosen: string)
      modifies this
      ensures closedModals == old(closedModals) + 1
      ensures windows == old(windows) + [PrintUrl(listUrl, chosen, Join(items, ","))]
      ensures alerts == old(alerts) && queries == old(queries) && modals == old(modals)
    {
      closedModals := closedModals + 1;
      windows := windows + [PrintUrl(listUrl, chosen, Join(items, ","))];
    }
  }
}
