/** The model-information table of the frontend: for every model type its singular
    and plural labels, its overview and detail routes, its API list endpoint and its
    legacy-interface detail route, and the total lookup `getModelInfo`. */
module ModelTypes {
  import opened Wrappers
  import opened Strings

  /** The model types: one per key of the table. */
  datatype ModelType =
      Part
    | PartParameterTemplate
    | PartTestTemplate
    | SupplierPart
    | ManufacturerPart
    | PartCategory
    | StockItem
    | StockLocation
    | StockHistory
    | Build
    | BuildLine
    | Company
    | ProjectCode
    | PurchaseOrder
    | PurchaseOrderLine
    | SalesOrder
    | SalesOrderShipment
    | ReturnOrder
    | Address
    | Contact
    | Owner
    | User
    | LabelTemplate
    | ReportTemplate
    | PluginConfig

  /** The API list endpoints the table refers to. */
  datatype ApiEndpoint =
      PartList
    | PartParameterTemplateList
    | PartTestTemplateList
    | SupplierPartList
    | ManufacturerPartList
    | CategoryList
    | StockItemList
    | StockLocationList
    | StockTrackingList
    | BuildOrderList
    | BuildLineList
    | CompanyList
    | ProjectCodeList
    | PurchaseOrderList
    | PurchaseOrderLineList
    | SalesOrderList
    | SalesOrderShipmentList
    | ReturnOrderList
    | AddressList
    | ContactList
    | OwnerList
    | UserList
    | LabelList
    | ReportList
    | PluginList

  /** One entry of the table; an optional route is `None` where the entry has no such
      key. */
  datatype ModelInformation = ModelInformation(
    labelSingular: string,
    labelMultiple: string,
    urlOverview: Option<string>,
    urlDetail: Option<string>,
    apiEndpoint: ApiEndpoint,
    cuiDetail: Option<string>)

  /* The table is kept column by column: one function per field, each listing the
     entries in the table's order. */

  /** The `label` column: the singular label. */
  function Label(m: ModelType): string {
    match m
    case Part => "Part"
    case PartParameterTemplate => "Part Parameter Template"
    case PartTestTemplate => "Part Test Template"
    case SupplierPart => "Supplier Part"
    case ManufacturerPart => "Manufacturer Part"
    case PartCategory => "Part Category"
    case StockItem => "Stock Item"
    case StockLocation => "Stock Location"
    case StockHistory => "Stock History"
    case Build => "Build"
    case BuildLine => "Build Line"
    case Company => "Company"
    case ProjectCode => "Project Code"
    case PurchaseOrder => "Purchase Order"
    case PurchaseOrderLine => "Purchase Order Line"
    case SalesOrder => "Sales Order"
    case SalesOrderShipment => "Sales Order Shipment"
    case ReturnOrder => "Return Order"
    case Address => "Address"
    case Contact => "Contact"
    case Owner => "Owner"
    case User => "User"
    case LabelTemplate => "Label Template"
    case ReportTemplate => "Report Template"
    case PluginConfig => "Plugin Configuration"
  }

  /** The `label_multiple` column: the plural label. */
  function LabelMultiple(m: ModelType): string {
    match m
    case Part => "Parts"
    case PartParameterTemplate => "Part Parameter Templates"
    case PartTestTemplate => "Part Test Templates"
    case SupplierPart => "Supplier Parts"
    case ManufacturerPart => "Manufacturer Parts"
    case PartCategory => "Part Categories"
    case StockItem => "Stock Items"
    case StockLocation => "Stock Locations"
    case StockHistory => "Stock Histories"
    case Build => "Builds"
    case BuildLine => "Build Lines"
    case Company => "Companies"
    case ProjectCode => "Project Codes"
    case PurchaseOrder => "Purchase Orders"
    case PurchaseOrderLine => "Purchase Order Lines"
    case SalesOrder => "Sales Orders"
    case SalesOrderShipment => "Sales Order Shipments"
    case ReturnOrder => "Return Orders"
    case Address => "Addresses"
    case Contact => "Contacts"
    case Owner => "Owners"
    case User => "Users"
    case LabelTemplate => "Label Templates"
    case ReportTemplate => "Report Templates"
    case PluginConfig => "Plugin Configurations"
  }

  /** The `url_overview` column: the route of the list page, if any. */
  function OverviewRoute(m: ModelType): Option<string> {
    match m
    case Part => Some("/part")
    case PartParameterTemplate => Some("/partparametertemplate")
    case PartTestTemplate => Some("/parttesttemplate")
    case SupplierPart => Some("/supplierpart")
    case ManufacturerPart => Some("/manufacturerpart")
    case PartCategory => Some("/part/category")
    case StockItem => Some("/stock/item")
    case StockLocation => Some("/stock/location")
    case StockHistory => None
    case Build => Some("/build")
    case BuildLine => Some("/build/line")
    case Company => Some("/company")
    case ProjectCode => Some("/project-code")
    case PurchaseOrder => Some("/purchasing/purchase-order")
    case PurchaseOrderLine => None
    case SalesOrder => Some("/sales/sales-order")
    case SalesOrderShipment => Some("/salesordershipment")
    case ReturnOrder => Some("/sales/return-order")
    case Address => Some("/address")
    case Contact => Some("/contact")
    case Owner => Some("/owner")
    case User => Some("/user")
    case LabelTemplate => Some("/labeltemplate")
    case ReportTemplate => Some("/reporttemplate")
    case PluginConfig => Some("/pluginconfig")
  }

  /** The `url_detail` column: the route of one object's page, if any. */
  function DetailRoute(m: ModelType): Option<string> {
    match m
    case Part => Some("/part/:pk/")
    case PartParameterTemplate => Some("/partparametertemplate/:pk/")
    case PartTestTemplate => Some("/parttesttemplate/:pk/")
    case SupplierPart => Some("/purchasing/supplier-part/:pk/")
    case ManufacturerPart => Some("/purchasing/manufacturer-part/:pk/")
    case PartCategory => Some("/part/category/:pk/")
    case StockItem => Some("/stock/item/:pk/")
    case StockLocation => Some("/stock/location/:pk/")
    case StockHistory => None
    case Build => Some("/build/:pk/")
    case BuildLine => Some("/build/line/:pk/")
    case Company => Some("/company/:pk/")
    case ProjectCode => Some("/project-code/:pk/")
    case PurchaseOrder => Some("/purchasing/purchase-order/:pk/")
    case PurchaseOrderLine => None
    case SalesOrder => Some("/sales/sales-order/:pk/")
    case SalesOrderShipment => Some("/salesordershipment/:pk/")
    case ReturnOrder => Some("/sales/return-order/:pk/")
    case Address => Some("/address/:pk/")
    case Contact => Some("/contact/:pk/")
    case Owner => Some("/owner/:pk/")
    case User => Some("/user/:pk/")
    case LabelTemplate => Some("/labeltemplate/:pk/")
    case ReportTemplate => Some("/reporttemplate/:pk/")
    case PluginConfig => Some("/pluginconfig/:pk/")
  }

  /** The `api_endpoint` column: the API list endpoint. */
  function Endpoint(m: ModelType): ApiEndpoint {
    match m
    case Part => PartList
    case PartParameterTemplate => PartParameterTemplateList
    case PartTestTemplate => PartTestTemplateList
    case SupplierPart => SupplierPartList
    case ManufacturerPart => ManufacturerPartList
    case PartCategory => CategoryList
    case StockItem => StockItemList
    case StockLocation => StockLocationList
    case StockHistory => StockTrackingList
    case Build => BuildOrderList
    case BuildLine => BuildLineList
    case Company => CompanyList
    case ProjectCode => ProjectCodeList
    case PurchaseOrder => PurchaseOrderList
    case PurchaseOrderLine => PurchaseOrderLineList
    case SalesOrder => SalesOrderList
    case SalesOrderShipment => SalesOrderShipmentList
    case ReturnOrder => ReturnOrderList
    case Address => AddressList
    case Contact => ContactList
    case Owner => OwnerList
    case User => UserList
    case LabelTemplate => LabelList
    case ReportTemplate => ReportList
    case PluginConfig => PluginList
  }

  /** The `cui_detail` column: the object's route in the legacy interface, if any. */
  function CuiRoute(m: ModelType): Option<string> {
    match m
    case Part => Some("/part/:pk/")
    case PartParameterTemplate => None
    case PartTestTemplate => None
    case SupplierPart => Some("/supplier-part/:pk/")
    case ManufacturerPart => Some("/manufacturer-part/:pk/")
    case PartCategory => Some("/part/category/:pk/")
    case StockItem => Some("/stock/item/:pk/")
    case StockLocation => Some("/stock/location/:pk/")
    case StockHistory => None
    case Build => Some("/build/:pk/")
    case BuildLine => Some("/build/line/:pk/")
    case Company => Some("/company/:pk/")
    case ProjectCode => None
    case PurchaseOrder => Some("/order/purchase-order/:pk/")
    case PurchaseOrderLine => None
    case SalesOrder => Some("/order/sales-order/:pk/")
    case SalesOrderShipment => None
    case ReturnOrder => Some("/order/return-order/:pk/")
    case Address => None
    case Contact => None
    case Owner => None
    case User => None
    case LabelTemplate => None
    case ReportTemplate => None
    case PluginConfig => None
  }

  /** `getModelInfo`: the table entry for a model type, assembled from the columns.
      The lookup is total, since the table has an entry for every model type. */
  function ModelInfo(m: ModelType): (info: ModelInformation)
    ensures |info.labelSingular| > 0 && |info.labelMultiple| > 0
    ensures info.urlOverview.Some? <==> info.urlDetail.Some?
    ensures info.urlDetail.Some? ==> PkRoute(info.urlDetail.value)
    ensures info.cuiDetail.Some? ==> PkRoute(info.cuiDetail.value)
    ensures ModelOfEndpoint(info.apiEndpoint) == m
  {
    LabelsNonEmpty(m);
    OverviewIffDetail(m);
    AllRoutesWellFormed(m);
    EndpointIdentifiesModel(m);
    ModelInformation(Label(m), LabelMultiple(m), OverviewRoute(m), DetailRoute(m),
                     Endpoint(m), CuiRoute(m))
  }

  /** Every entry has a non-empty singular and plural label. */
  lemma LabelsNonEmpty(m: ModelType)
    ensures |Label(m)| > 0 && |LabelMultiple(m)| > 0
  {
  }

  /** A route for one object: it ends with "/:pk/", and that ':' is the only one in it,
      so ":pk" occurs in it exactly once. */
  predicate PkRoute(u: string) {
    && EndsWith(u, "/:pk/")
    && ':' !in u[..|u| - 4]
  }

  /** A prefix without ':' followed by "/:pk/" is such a route. */
  lemma PkRouteFrom(prefix: string, u: string)
    requires ':' !in prefix && u == prefix + "/:pk/"
    ensures PkRoute(u)
  {
    assert u[|prefix|..] == "/:pk/";
    assert u[..|u| - 4] == prefix + "/";
  }

  /** Such a route ends in particular with ":pk/". */
  lemma PkRouteEndsWithPk(u: string)
    requires PkRoute(u)
    ensures EndsWith(u, ":pk/")
  {
    assert u[|u| - 4..] == u[|u| - 5..][1..];
  }

  /** An entry's routes are well formed: its detail route and its legacy-interface
      detail route, where present, are both `PkRoute`s. */
  predicate RoutesWellFormed(m: ModelType) {
    && (DetailRoute(m).Some? ==> PkRoute(DetailRoute(m).value))
    && (CuiRoute(m).Some? ==> PkRoute(CuiRoute(m).value))
  }

  /* One lemma per entry with routes: each checks that entry's literal routes. */

  lemma PartRoutes()
    ensures RoutesWellFormed(Part)
  {
    PkRouteFrom("/part", "/part/:pk/");
  }

  lemma PartParameterTemplateRoutes()
    ensures RoutesWellFormed(PartParameterTemplate)
  {
    PkRouteFrom("/partparametertemplate", "/partparametertemplate/:pk/");
  }

  lemma PartTestTemplateRoutes()
    ensures RoutesWellFormed(PartTestTemplate)
  {
    PkRouteFrom("/parttesttemplate", "/parttesttemplate/:pk/");
  }

  lemma SupplierPartRoutes()
    ensures RoutesWellFormed(SupplierPart)
  {
    PkRouteFrom("/purchasing/supplier-part", "/purchasing/supplier-part/:pk/");
    PkRouteFrom("/supplier-part", "/supplier-part/:pk/");
  }

  lemma ManufacturerPartRoutes()
    ensures RoutesWellFormed(ManufacturerPart)
  {
    PkRouteFrom("/purchasing/manufacturer-part", "/purchasing/manufacturer-part/:pk/");
    PkRouteFrom("/manufacturer-part", "/manufacturer-part/:pk/");
  }

  lemma PartCategoryRoutes()
    ensures RoutesWellFormed(PartCategory)
  {
    PkRouteFrom("/part/category", "/part/category/:pk/");
  }

  lemma StockItemRoutes()
    ensures RoutesWellFormed(StockItem)
  {
    PkRouteFrom("/stock/item", "/stock/item/:pk/");
  }

  lemma StockLocationRoutes()
    ensures RoutesWellFormed(StockLocation)
  {
    PkRouteFrom("/stock/location", "/stock/location/:pk/");
  }

  lemma BuildRoutes()
    ensures RoutesWellFormed(Build)
  {
    PkRouteFrom("/build", "/build/:pk/");
  }

  lemma BuildLineRoutes()
    ensures RoutesWellFormed(BuildLine)
  {
    PkRouteFrom("/build/line", "/build/line/:pk/");
  }

  lemma CompanyRoutes()
    ensures RoutesWellFormed(Company)
  {
    PkRouteFrom("/company", "/company/:pk/");
  }

  lemma ProjectCodeRoutes()
    ensures RoutesWellFormed(ProjectCode)
  {
    PkRouteFrom("/project-code", "/project-code/:pk/");
  }

  lemma PurchaseOrderRoutes()
    ensures RoutesWellFormed(PurchaseOrder)
  {
    PkRouteFrom("/purchasing/purchase-order", "/purchasing/purchase-order/:pk/");
    PkRouteFrom("/order/purchase-order", "/order/purchase-order/:pk/");
  }

  lemma SalesOrderRoutes()
    ensures RoutesWellFormed(SalesOrder)
  {
    PkRouteFrom("/sales/sales-order", "/sales/sales-order/:pk/");
    PkRouteFrom("/order/sales-order", "/order/sales-order/:pk/");
  }

  lemma SalesOrderShipmentRoutes()
    ensures RoutesWellFormed(SalesOrderShipment)
  {
    PkRouteFrom("/salesordershipment", "/salesordershipment/:pk/");
  }

  lemma ReturnOrderRoutes()
    ensures RoutesWellFormed(ReturnOrder)
  {
    PkRouteFrom("/sales/return-order", "/sales/return-order/:pk/");
    PkRouteFrom("/order/return-order", "/order/return-order/:pk/");
  }

  lemma AddressRoutes()
    ensures RoutesWellFormed(Address)
  {
    PkRouteFrom("/address", "/address/:pk/");
  }

  lemma ContactRoutes()
    ensures RoutesWellFormed(Contact)
  {
    PkRouteFrom("/contact", "/contact/:pk/");
  }

  lemma OwnerRoutes()
    ensures RoutesWellFormed(Owner)
  {
    PkRouteFrom("/owner", "/owner/:pk/");
  }

  lemma UserRoutes()
    ensures RoutesWellFormed(User)
  {
    PkRouteFrom("/user", "/user/:pk/");
  }

  lemma LabelTemplateRoutes()
    ensures RoutesWellFormed(LabelTemplate)
  {
    PkRouteFrom("/labeltemplate", "/labeltemplate/:pk/");
  }

  lemma ReportTemplateRoutes()
    ensures RoutesWellFormed(ReportTemplate)
  {
    PkRouteFrom("/reporttemplate", "/reporttemplate/:pk/");
  }

  lemma PluginConfigRoutes()
    ensures RoutesWellFormed(PluginConfig)
  {
    PkRouteFrom("/pluginconfig", "/pluginconfig/:pk/");
  }

  /** The routes of the entries from Part to ManufacturerPart are well formed. */
  lemma RoutesPartEntries(m: ModelType)
    requires (m.Part? || m.PartParameterTemplate? || m.PartTestTemplate? ||
              m.SupplierPart? || m.ManufacturerPart?)
    ensures RoutesWellFormed(m)
  {
    match m
    case Part => PartRoutes();
    case PartParameterTemplate => PartParameterTemplateRoutes();
    case PartTestTemplate => PartTestTemplateRoutes();
    case SupplierPart => SupplierPartRoutes();
    case ManufacturerPart => ManufacturerPartRoutes();
    case _ =>
  }

  /** The routes of the entries from PartCategory to Build are well formed. */
  lemma RoutesStockEntries(m: ModelType)
    requires (m.PartCategory? || m.StockItem? || m.StockLocation? || m.StockHistory? ||
              m.Build?)
    ensures RoutesWellFormed(m)
  {
    match m
    case PartCategory => PartCategoryRoutes();
    case StockItem => StockItemRoutes();
    case StockLocation => StockLocationRoutes();
    case StockHistory =>
    case Build => BuildRoutes();
    case _ =>
  }

  /** The routes of the entries from BuildLine to PurchaseOrderLine are well formed. */
  lemma RoutesOrderEntries(m: ModelType)
    requires (m.BuildLine? || m.Company? || m.ProjectCode? || m.PurchaseOrder? ||
              m.PurchaseOrderLine?)
    ensures RoutesWellFormed(m)
  {
    match m
    case BuildLine => BuildLineRoutes();
    case Company => CompanyRoutes();
    case ProjectCode => ProjectCodeRoutes();
    case PurchaseOrder => PurchaseOrderRoutes();
    case PurchaseOrderLine =>
    case _ =>
  }

  /** The routes of the entries from SalesOrder to Contact are well formed. */
  lemma RoutesSalesEntries(m: ModelType)
    requires (m.SalesOrder? || m.SalesOrderShipment? || m.ReturnOrder? || m.Address? ||
              m.Contact?)
    ensures RoutesWellFormed(m)
  {
    match m
    case SalesOrder => SalesOrderRoutes();
    case SalesOrderShipment => SalesOrderShipmentRoutes();
    case ReturnOrder => ReturnOrderRoutes();
    case Address => AddressRoutes();
    case Contact => ContactRoutes();
    case _ =>
  }

  /** The routes of the entries from Owner to PluginConfig are well formed. */
  lemma RoutesAdminEntries(m: ModelType)
    requires (m.Owner? || m.User? || m.LabelTemplate? || m.ReportTemplate? ||
              m.PluginConfig?)
    ensures RoutesWellFormed(m)
  {
    match m
    case Owner => OwnerRoutes();
    case User => UserRoutes();
    case LabelTemplate => LabelTemplateRoutes();
    case ReportTemplate => ReportTemplateRoutes();
    case PluginConfig => PluginConfigRoutes();
    case _ =>
  }

  /** Every detail route, and every legacy-interface detail route, of every entry
      ends with "/:pk/" and contains ":pk" exactly once, so the page fills in exactly
      one primary key. */
  lemma {:induction false} AllRoutesWellFormed(m: ModelType)
    ensures RoutesWellFormed(m)
  {
    if (m.Part? || m.PartParameterTemplate? || m.PartTestTemplate? ||
        m.SupplierPart? || m.ManufacturerPart?) {
      RoutesPartEntries(m);
    } else if (m.PartCategory? || m.StockItem? || m.StockLocation? ||
               m.StockHistory? || m.Build?) {
      RoutesStockEntries(m);
    } else if (m.BuildLine? || m.Company? || m.ProjectCode? || m.PurchaseOrder? ||
               m.PurchaseOrderLine?) {
      RoutesOrderEntries(m);
    } else if (m.SalesOrder? || m.SalesOrderShipment? || m.ReturnOrder? ||
               m.Address? || m.Contact?) {
      RoutesSalesEntries(m);
    } else {
      RoutesAdminEntries(m);
    }
  }

  /** An entry has a detail route exactly when it has an overview route, and only the
      stock history and purchase order line entries have neither. */
  lemma OverviewIffDetail(m: ModelType)
    ensures OverviewRoute(m).Some? <==> DetailRoute(m).Some?
    ensures DetailRoute(m).None? <==> m == StockHistory || m == PurchaseOrderLine
  {
  }

  /** The model type an endpoint belongs to: the inverse of the table's endpoint
      column. */
  function ModelOfEndpoint(e: ApiEndpoint): ModelType {
    match e
    case PartList => Part
    case PartParameterTemplateList => PartParameterTemplate
    case PartTestTemplateList => PartTestTemplate
    case SupplierPartList => SupplierPart
    case ManufacturerPartList => ManufacturerPart
    case CategoryList => PartCategory
    case StockItemList => StockItem
    case StockLocationList => StockLocation
    case StockTrackingList => StockHistory
    case BuildOrderList => Build
    case BuildLineList => BuildLine
    case CompanyList => Company
    case ProjectCodeList => ProjectCode
    case PurchaseOrderList => PurchaseOrder
    case PurchaseOrderLineList => PurchaseOrderLine
    case SalesOrderList => SalesOrder
    case SalesOrderShipmentList => SalesOrderShipment
    case ReturnOrderList => ReturnOrder
    case AddressList => Address
    case ContactList => Contact
    case OwnerList => Owner
    case UserList => User
    case LabelList => LabelTemplate
    case ReportList => ReportTemplate
    case PluginList => PluginConfig
  }

  /** The endpoint column identifies the entry: reading an entry's endpoint back
      through `ModelOfEndpoint` gives its model type again. */
  lemma EndpointIdentifiesModel(m: ModelType)
    ensures ModelOfEndpoint(Endpoint(m)) == m
  {
  }

  /** No two entries share an API endpoint. */
  lemma {:induction false} EndpointsDistinct(m1: ModelType, m2: ModelType)
    ensures Endpoint(m1) == Endpoint(m2) ==> m1 == m2
  {
    EndpointIdentifiesModel(m1);
    EndpointIdentifiesModel(m2);
  }
}
