/**
 * The cargo intake form: the volume and density helpers, the page's own
 * density classifier, the live preview of the class, the submit guards and
 * the record the confirmation builds.
 */
module InputCargo {
  import opened Wrappers
  import opened CargoTypes

  /** The form fields: a cargo record without `id`, `volume` and `cargoType`. */
  datatype CargoForm = CargoForm(
    name: string,
    manufacturer: string,
    quantity: real,
    length: real,
    width: real,
    height: real,
    weight: real,
    notes: string,
    date: string,
    category: string,
    urgent: bool)

  /** `calculateVolume`: the product of the three dimensions, in cubic metres. */
  function CalculateVolume(length: real, width: real, height: real): (v: real)
    ensures length > 0.0 && width > 0.0 && height > 0.0 ==> v > 0.0
    ensures length == 0.0 || width == 0.0 || height == 0.0 ==> v == 0.0
  {
    length * width * height
  }

  /** Of nonnegative dimensions, the volume is zero exactly when one of them is. */
  lemma VolumeZeroIff(length: real, width: real, height: real)
    requires length >= 0.0 && width >= 0.0 && height >= 0.0
    ensures CalculateVolume(length, width, height) == 0.0 <==> length == 0.0 || width == 0.0 || height == 0.0
  {
    if length > 0.0 && width > 0.0 && height > 0.0 {
      assert length * width > 0.0;
    }
  }

  /** The density in kg per cubic metre of `weight` tons filling `volume`. */
  function Density(weight: real, volume: real): real
    requires volume != 0.0
  {
    weight * 1000.0 / volume
  }

  /**
   * The page's `calculateCargoType`: the class name of the density, or the empty
   * string when the volume is zero.
   */
  function PageCargoType(weight: real, volume: real): (name: string)
    ensures volume == 0.0 <==> name == ""
    ensures volume != 0.0 ==> name == ClassName(DensityClass(Density(weight, volume)))
  {
    if volume == 0.0 then "" else ClassName(DensityClass(Density(weight, volume)))
  }

  /**
   * The two classifiers agree on every nonzero volume; at volume zero the page
   * gives no class while the shared one says light.
   */
  lemma ClassifiersAgreeExceptAtZeroVolume(weight: real, volume: real)
    ensures volume != 0.0 ==> PageCargoType(weight, volume) == ClassName(CalculateCargoType(weight, volume))
    ensures volume == 0.0 ==> PageCargoType(weight, volume) == "" && ClassName(CalculateCargoType(weight, volume)) == "轻货"
  {
  }

  /** The class shown while typing: none unless both the volume and the weight are positive. */
  function PreviewType(form: CargoForm): (name: string)
    ensures name != "" <==> CalculateVolume(form.length, form.width, form.height) > 0.0 && form.weight > 0.0
    ensures name != "" ==> name == PageCargoType(form.weight, CalculateVolume(form.length, form.width, form.height))
  {
    var volume := CalculateVolume(form.length, form.width, form.height);
    if volume > 0.0 && form.weight > 0.0 then PageCargoType(form.weight, volume) else ""
  }

  /** `getDensityInfo`: the density, or nothing when the volume or the weight is zero. */
  function GetDensityInfo(form: CargoForm): (r: Option<real>)
    ensures r.None? <==> CalculateVolume(form.length, form.width, form.height) == 0.0 || form.weight == 0.0
    ensures r.Some? ==> r.value * CalculateVolume(form.length, form.width, form.height) == form.weight * 1000.0
  {
    var volume := CalculateVolume(form.length, form.width, form.height);
    if volume == 0.0 || form.weight == 0.0 then None else Some(Density(form.weight, volume))
  }

  /** What pressing submit does. */
  datatype SubmitOutcome =
    | InvalidDimensions  // alert: enter a valid length, width and height
    | InvalidWeight      // alert: enter a valid weight
    | AskConfirmation    // open the confirmation dialog

  /** `handleSubmit`: check the dimensions, then the weight, then ask for confirmation. */
  function HandleSubmit(form: CargoForm): (r: SubmitOutcome)
    ensures r == InvalidDimensions <==> form.length <= 0.0 || form.width <= 0.0 || form.height <= 0.0
    ensures r == InvalidWeight <==> form.length > 0.0 && form.width > 0.0 && form.height > 0.0 && form.weight <= 0.0
    ensures r == AskConfirmation <==> form.length > 0.0 && form.width > 0.0 && form.height > 0.0 && form.weight > 0.0
  {
    if form.length <= 0.0 || form.width <= 0.0 || form.height <= 0.0 then InvalidDimensions
    else if form.weight <= 0.0 then InvalidWeight
    else AskConfirmation
  }

  /**
   * `confirmSubmit`: the cargo record handed to `addCargo`, with the form
   * fields, a generated `id`, the computed volume and the page's class.
   */
  function ConfirmSubmit(form: CargoForm, id: string): (c: Cargo)
    ensures c.id == id
    ensures c.name == form.name && c.manufacturer == form.manufacturer && c.quantity == form.quantity
    ensures c.length == form.length && c.width == form.width && c.height == form.height && c.weight == form.weight
    ensures c.notes == form.notes && c.date == form.date && c.category == form.category && c.urgent == form.urgent
    ensures c.truckId.None? && c.customerId.None? && c.hasTimeLimit.None? && c.timeLimitDate.None? && c.isCarryOver.None?
  {
    var volume := CalculateVolume(form.length, form.width, form.height);
    Cargo(id, form.name, form.manufacturer, form.quantity, form.length, form.width, form.height,
          volume, form.weight, form.notes, form.date, PageCargoType(form.weight, volume), form.category,
          form.urgent, None, None, None, None, None)
  }

  /**
   * A form that passed the guards yields a cargo of positive volume, equal to
   * the product of its dimensions, whose class is the shared classifier's class
   * for its density (never the empty string).
   */
  lemma AcceptedCargoIsClassified(form: CargoForm, id: string)
    requires HandleSubmit(form) == AskConfirmation
    ensures var c := ConfirmSubmit(form, id);
      c.volume > 0.0 && c.volume == c.length * c.width * c.height &&
      c.cargoType != "" && c.cargoType == ClassName(CalculateCargoType(c.weight, c.volume)) &&
      c.cargoType == PreviewType(form)
  {
  }
}
