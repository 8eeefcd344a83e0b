/**
 * Domain shapes of the storefront: order statuses, furniture types and
 * categories, the catalogue records, the client-side cart item and the
 * custom-furniture configuration, plus the Spanish label tables.
 */
module Types {
  import opened Optional

  type Id = string

  datatype OrderStatus =
    | QuoteGenerated
    | DepositPaid
    | InProduction
    | Manufactured
    | ReadyForDelivery
    | Delivered
    | Cancelled

  datatype FurnitureCategory = Tables | Chairs | Beds | Cabinets | Shelving | Desks

  datatype FurnitureType = DiningTable | CoffeeTable | Bookshelf | BedFrame | Desk | Cabinet

  datatype WoodType = WoodType(
    id: Id,
    name: string,
    priceMultiplier: real,
    costPerCubicMeter: real)

  datatype Finish = Finish(id: Id, name: string, costPerSquareMeter: real)

  datatype Extra = Extra(id: Id, name: string, basePrice: real)

  datatype Product = Product(
    id: Id,
    name: string,
    description: Option<string>,
    category: FurnitureCategory,
    basePrice: real,
    stockQuantity: int)

  datatype CustomFurnitureConfig = CustomFurnitureConfig(
    furnitureType: FurnitureType,
    woodType: WoodType,
    finish: Finish,
    length: real,
    width: real,
    height: real,
    extras: seq<Extra>,
    notes: Option<string>)

  /** A cart line, tagged `standard` or `custom`; the payload of either tag is optional. */
  datatype CartItem =
    | Standard(id: Id, product: Option<Product>, quantity: int, unitPrice: real, totalPrice: real)
    | Custom(id: Id, customConfig: Option<CustomFurnitureConfig>, quantity: int, unitPrice: real, totalPrice: real)

  /** The order row as the tracking view reads it back. */
  datatype Order = Order(
    id: Id,
    orderNumber: string,
    status: OrderStatus,
    subtotal: real,
    depositAmount: real,
    depositPaid: bool,
    remainingBalance: real,
    balancePaid: bool)

  /** Every order status, in declaration order. */
  function AllOrderStatuses(): (r: seq<OrderStatus>)
    ensures |r| == 7
    ensures forall i, j :: 0 <= i < j < |r| ==> r[i] != r[j]
  {
    [QuoteGenerated, DepositPaid, InProduction, Manufactured, ReadyForDelivery, Delivered, Cancelled]
  }

  /** Every furniture type, in declaration order. */
  function AllFurnitureTypes(): (r: seq<FurnitureType>)
    ensures |r| == 6
    ensures forall i, j :: 0 <= i < j < |r| ==> r[i] != r[j]
  {
    [DiningTable, CoffeeTable, Bookshelf, BedFrame, Desk, Cabinet]
  }

  /** The list of order statuses is exhaustive. */
  lemma AllOrderStatusesComplete(s: OrderStatus)
    ensures s in AllOrderStatuses()
  {
    var r := AllOrderStatuses();
    match s
    case QuoteGenerated => assert r[0] == s;
    case DepositPaid => assert r[1] == s;
    case InProduction => assert r[2] == s;
    case Manufactured => assert r[3] == s;
    case ReadyForDelivery => assert r[4] == s;
    case Delivered => assert r[5] == s;
    case Cancelled => assert r[6] == s;
  }

  /** The list of furniture types is exhaustive. */
  lemma AllFurnitureTypesComplete(t: FurnitureType)
    ensures t in AllFurnitureTypes()
  {
    var r := AllFurnitureTypes();
    match t
    case DiningTable => assert r[0] == t;
    case CoffeeTable => assert r[1] == t;
    case Bookshelf => assert r[2] == t;
    case BedFrame => assert r[3] == t;
    case Desk => assert r[4] == t;
    case Cabinet => assert r[5] == t;
  }

  function OrderStatusLabel(s: OrderStatus): string
  {
    match s
    case QuoteGenerated => "Presupuesto Generado"
    case DepositPaid => "Anticipo Pagado"
    case InProduction => "En Producción"
    case Manufactured => "Fabricado"
    case ReadyForDelivery => "Listo para Entrega"
    case Delivered => "Entregado"
    case Cancelled => "Cancelado"
  }

  function FurnitureTypeLabel(t: FurnitureType): string
  {
    match t
    case DiningTable => "Mesa de Comedor"
    case CoffeeTable => "Mesa de Centro"
    case Bookshelf => "Estantería"
    case BedFrame => "Estructura de Cama"
    case Desk => "Escritorio"
    case Cabinet => "Armario"
  }

  /** The status label table is total and tells the seven statuses apart. */
  lemma OrderStatusLabelsDistinct(a: OrderStatus, b: OrderStatus)
    ensures OrderStatusLabel(a) != ""
    ensures OrderStatusLabel(a) == OrderStatusLabel(b) ==> a == b
  {
  }

  /** The furniture-type label table is total and tells the six types apart. */
  lemma FurnitureTypeLabelsDistinct(a: FurnitureType, b: FurnitureType)
    ensures FurnitureTypeLabel(a) != ""
    ensures FurnitureTypeLabel(a) == FurnitureTypeLabel(b) ==> a == b
  {
  }
}
