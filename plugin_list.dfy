/** The plugin list table: the status icon and description cell of each row, the
    activate / deactivate row action, and the PATCH request with its notifications
    that confirming the action sends. */
module PluginList {

  /** The fields of a plugin row that the table reads. */
  datatype PluginRecord = PluginRecord(pk: int, name: string, isBuiltin: bool,
                                       isInstalled: bool, active: bool,
                                       description: string)

  /** The three status indicators. */
  datatype StatusIcon = ActiveIcon | InactiveIcon | NotInstalledIcon

  /** `PluginIcon`: installation decides first, `active` only matters for an installed
      plugin. */
  function PluginIcon(p: PluginRecord): (icon: StatusIcon)
    ensures icon == ActiveIcon <==> p.isInstalled && p.active
    ensures icon == InactiveIcon <==> p.isInstalled && !p.active
    ensures icon == NotInstalledIcon <==> !p.isInstalled
  {
    if p.isInstalled then (if p.active then ActiveIcon else InactiveIcon)
    else NotInstalledIcon
  }

  /** What the description column shows. */
  datatype DescriptionCell = DescriptionText(text: string) | DescriptionNotAvailable

  /** The description column: the plugin's own description, but only while it is
      active. */
  function DescriptionOf(p: PluginRecord): (cell: DescriptionCell)
    ensures cell.DescriptionText? <==> p.active
    ensures cell.DescriptionText? ==> cell.text == p.description
  {
    if p.active then DescriptionText(p.description) else DescriptionNotAvailable
  }

  /** A row action: its title and colour, and the arguments its click hands to
      `activatePlugin`. */
  datatype RowAction = RowAction(title: string, color: string, pluginPk: int,
                                 pluginName: string, activate: bool)

  /** `rowActions`: a user-installed plugin gets the one action that flips its state;
      built-in and not-installed plugins get none. */
  method RowActions(record: PluginRecord) returns (actions: seq<RowAction>)
    ensures record.isBuiltin || !record.isInstalled ==> actions == []
    ensures !record.isBuiltin && record.isInstalled ==> |actions| == 1
    ensures forall a :: a in actions ==>
      && a.activate == !record.active
      && a.pluginPk == record.pk && a.pluginName == record.name
      && a.title == (if record.active then "Deactivate" else "Activate")
      && a.color == (if record.active then "red" else "green")
  {
    actions := [];
    if !record.isBuiltin && record.isInstalled {
      if record.active {
        actions := actions + [RowAction("Deactivate", "red", record.pk, record.name, false)];
      } else {
        actions := actions + [RowAction("Activate", "green", record.pk, record.name, true)];
      }
    }
  }

  /** A PATCH request: where it goes and the `active` flag in its body. */
  datatype PatchRequest = PatchRequest(url: string, active: bool)

  /** The request `onConfirm` sends. `detailUrl` stands for `apiUrl(plugin_list, id)`,
      the plugin's detail endpoint. */
  function ActivationRequest(pluginId: int, active: bool, detailUrl: int -> string)
    : (r: PatchRequest)
    ensures |r.url| == |detailUrl(pluginId)| + 9
    ensures r.url[..|detailUrl(pluginId)|] == detailUrl(pluginId)
    ensures r.url[|detailUrl(pluginId)|..] == "activate/"
    ensures r.active == active
  {
    PatchRequest(detailUrl(pluginId) + "activate/", active)
  }

  /** An action offered for a row, once confirmed and applied by the server, moves the
      plugin to the other installed state: its icon changes between active and
      inactive, and the request carries the new state. */
  lemma ActionFlipsIcon(record: PluginRecord, a: RowAction, detailUrl: int -> string)
    requires !record.isBuiltin && record.isInstalled
    requires a.activate == !record.active && a.pluginPk == record.pk
    ensures PluginIcon(record) != NotInstalledIcon
    ensures PluginIcon(record.(active := a.activate)) != NotInstalledIcon
    ensures PluginIcon(record.(active := a.activate)) != PluginIcon(record)
    ensures ActivationRequest(a.pluginPk, a.activate, detailUrl).active
            == (PluginIcon(record) == InactiveIcon)
  {
  }

  /** The notifications the activation shows: a loading notice under a fixed id, the
      hiding of that notice, and a coloured result notice. */
  datatype Notification = Progress(id: string, message: string)
                        | Hide(id: string)
                        | Shown(title: string, message: string, color: string)

  const ProgressId := "plugin-activate"

  /** The result notice for a finished request. */
  function OutcomeNotice(active: bool, succeeded: bool): (n: Notification)
    ensures n.Shown?
    ensures n.color == (if succeeded then "green" else "red")
    ensures !succeeded ==> n.message == "Error updating plugin"
  {
    if succeeded then
      Shown("Plugin updated",
            if active then "The plugin was activated" else "The plugin was deactivated",
            "green")
    else Shown("Error", "Error updating plugin", "red")
  }

  /** The table as `activatePlugin` sees it: how often it was refreshed, the requests
      sent and the notifications shown. */
  class PluginTableView {
    var refreshCount: nat
    var requests: seq<PatchRequest>
    var notifications: seq<Notification>

    constructor ()
      ensures refreshCount == 0 && requests == [] && notifications == []
    {
      refreshCount := 0;
      requests := [];
      notifications := [];
    }

    /** `onConfirm`: show progress, send the PATCH, then hide the progress notice and
        report the outcome. Only a successful request refreshes the table; whether it
        succeeds is the `succeeded` parameter. */
    method ConfirmActivation(pluginId: int, active: bool, detailUrl: int -> string,
                             succeeded: bool)
      modifies this
      ensures requests == old(requests) + [ActivationRequest(pluginId, active, detailUrl)]
      ensures refreshCount == old(refreshCount) + (if succeeded then 1 else 0)
      ensures notifications == old(notifications) +
        [Progress(ProgressId,
                  if active then "Activating plugin" else "Deactivating plugin"),
         Hide(ProgressId), OutcomeNotice(active, succeeded)]
    {
      var url := detailUrl(pluginId) + "activate/";
      notifications := notifications +
        [Progress(ProgressId, if active then "Activating plugin" else "Deactivating plugin")];
      requests := requests + [PatchRequest(url, active)];
      if succeeded {
        refreshCount := refreshCount + 1;
        notifications := notifications + [Hide(ProgressId)];
        notifications := notifications + [Shown("Plugin updated",
          if active then "The plugin was activated" else "The plugin was deactivated",
          "green")];
      } else {
        notifications := notifications + [Hide(ProgressId)];
        notifications := notifications + [Shown("Error", "Error updating plugin", "red")];
      }
    }
  }
}
