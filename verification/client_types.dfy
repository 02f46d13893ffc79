/** The client records of `src/types/client.ts` that the client modals
    read and write. Amounts are kept as exact reals; see the README for
    what that leaves out. */
module ClientTypes {
  import opened Basics

  datatype Client = Client(
    id: int,
    nombre: string,
    apellido: Option<string>,
    email: string,
    telefono: Option<string>,
    direccion: Option<string>,
    empresa: Option<string>,
    notas: Option<string>,
    activo: bool,
    createdAt: string,
    updatedAt: string)

  /** `CreateClientDto` as the form holds it: every field present. */
  datatype ClientForm = ClientForm(
    nombre: string,
    apellido: string,
    email: string,
    telefono: string,
    direccion: string,
    empresa: string,
    notas: string,
    activo: bool)

  datatype OrderItem = OrderItem(id: int, nombre: string, cantidad: int, precio: real, subtotal: real)

  /** One entry of `ClientOrderHistory[]`. */
  datatype Order = Order(
    id: int,
    numeroOrden: string,
    fechaPedido: string,
    estado: string,
    total: real,
    items: seq<OrderItem>)
}
