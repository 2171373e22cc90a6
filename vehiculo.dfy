/** The vehicle record (a JPA entity with Lombok-generated accessors and
    structural equality, which a Dafny datatype has by construction). */
module Model {
  import opened Common

  /** A `Double` price. The service never does arithmetic on it. */
  type Precio = real

  /** Every field is a boxed Java reference and may be null, so each is an
      `Option`. `id` is generated by the store. */
  datatype Vehiculo = Vehiculo(
    id: Option<int>,
    marca: Option<string>,
    modelo: Option<string>,
    anio: Option<int32>,
    color: Option<string>,
    placa: Option<string>,
    precio: Option<Precio>)

  /** The columns declared `nullable = false` all hold a value; only `precio`
      (and the id, which the store fills in) may be null. */
  predicate Complete(v: Vehiculo) {
    v.marca.Some? && v.modelo.Some? && v.anio.Some? && v.color.Some? && v.placa.Some?
  }

  /** `new Vehiculo()`: a record with every field unset. */
  function Blank(): (v: Vehiculo)
    ensures !Complete(v)
    ensures v.id.None? && v.marca.None? && v.modelo.None? && v.anio.None?
    ensures v.color.None? && v.placa.None? && v.precio.None?
  {
    Vehiculo(None, None, None, None, None, None, None)
  }

  /** The six setters `actualizar` calls on the stored record: every field
      the caller may set is taken from `source`, and only the id survives
      from `target`. */
  function WithFieldsOf(target: Vehiculo, source: Vehiculo): (r: Vehiculo)
    ensures r == source.(id := target.id)
    ensures Complete(r) <==> Complete(source)
  {
    target.(marca := source.marca, modelo := source.modelo, anio := source.anio,
            color := source.color, placa := source.placa, precio := source.precio)
  }
}
