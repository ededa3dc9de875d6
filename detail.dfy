/**
 * The vehicle detail store: seven free-text fields, merged from partial
 * updates (last write wins) and written through to storage as a whole.
 */
module Detail {
  import opened Wrappers
  import opened Storage

  datatype VehicleDetails = VehicleDetails(
    vin: string, make: string, model: string, year: string,
    color: string, mileage: string, licensePlate: string)

  /** A `Partial<VehicleDetails>`: None where the update leaves the field out. */
  datatype DetailsUpdate = DetailsUpdate(
    vin: Option<string>, make: Option<string>, model: Option<string>, year: Option<string>,
    color: Option<string>, mileage: Option<string>, licensePlate: Option<string>)

  datatype Field = Vin | Make | Model | Year | Color | Mileage | LicensePlate

  const EMPTY_DETAILS := VehicleDetails("", "", "", "", "", "", "")

  /** The empty update `{}`. */
  const NO_CHANGES := DetailsUpdate(None, None, None, None, None, None, None)

  function Get(d: VehicleDetails, f: Field): string {
    match f
    case Vin => d.vin
    case Make => d.make
    case Model => d.model
    case Year => d.year
    case Color => d.color
    case Mileage => d.mileage
    case LicensePlate => d.licensePlate
  }

  function GetUpdate(u: DetailsUpdate, f: Field): Option<string> {
    match f
    case Vin => u.vin
    case Make => u.make
    case Model => u.model
    case Year => u.year
    case Color => u.color
    case Mileage => u.mileage
    case LicensePlate => u.licensePlate
  }

  function Overlay(update: Option<string>, current: string): string {
    if update.Some? then update.value else current
  }

  /** `{ ...details, ...updates }`: each field the update carries wins, every other field is kept. */
  function Merge(d: VehicleDetails, u: DetailsUpdate): (r: VehicleDetails)
    ensures forall f :: GetUpdate(u, f).Some? ==> Get(r, f) == GetUpdate(u, f).value
    ensures forall f :: GetUpdate(u, f).None? ==> Get(r, f) == Get(d, f)
  {
    VehicleDetails(
      Overlay(u.vin, d.vin), Overlay(u.make, d.make), Overlay(u.model, d.model), Overlay(u.year, d.year),
      Overlay(u.color, d.color), Overlay(u.mileage, d.mileage), Overlay(u.licensePlate, d.licensePlate))
  }

  /** Applying the same update twice is the same as applying it once. */
  lemma MergeIdempotent(d: VehicleDetails, u: DetailsUpdate)
    ensures Merge(Merge(d, u), u) == Merge(d, u)
  {
  }

  /** The empty update changes nothing. */
  lemma MergeNothing(d: VehicleDetails)
    ensures Merge(d, NO_CHANGES) == d
  {
  }

  /** The update whose fields are those of `second`, falling back to `first`. */
  function Then(first: DetailsUpdate, second: DetailsUpdate): DetailsUpdate {
    DetailsUpdate(
      if second.vin.Some? then second.vin else first.vin,
      if second.make.Some? then second.make else first.make,
      if second.model.Some? then second.model else first.model,
      if second.year.Some? then second.year else first.year,
      if second.color.Some? then second.color else first.color,
      if second.mileage.Some? then second.mileage else first.mileage,
      if second.licensePlate.Some? then second.licensePlate else first.licensePlate)
  }

  /** Two updates in a row are one combined update, the later one winning per field. */
  lemma MergeTwice(d: VehicleDetails, first: DetailsUpdate, second: DetailsUpdate)
    ensures Merge(Merge(d, first), second) == Merge(d, Then(first, second))
  {
  }

  /** `updateDetails({make: 'Toyota'})` then `updateDetails({model: 'Camry'})` keeps both and nothing else changes. */
  lemma ToyotaThenCamry(d: VehicleDetails)
    ensures var make := NO_CHANGES.(make := Some("Toyota"));
      var model := NO_CHANGES.(model := Some("Camry"));
      Merge(Merge(d, make), model) == d.(make := "Toyota", model := "Camry")
  {
  }

  class DetailStore {
    var details: VehicleDetails
    /** Every snapshot written to the detail storage key, oldest first. */
    ghost var writes: seq<VehicleDetails>

    /** Storage agrees with memory. */
    ghost predicate Synced()
      reads this
    {
      writes != [] && writes[|writes| - 1] == details
    }

    /**
     * Starts from the stored snapshot, or all fields empty. The source
     * parses the stored text without a guard, so an unparsable value
     * throws and no store is created.
     */
    constructor (slot: Slot<VehicleDetails>)
      requires !slot.Unparsable?
      ensures slot.Absent? ==> details == EMPTY_DETAILS
      ensures slot.Holds? ==> details == slot.value
      ensures writes == []
    {
      details := if slot.Holds? then slot.value else EMPTY_DETAILS;
      writes := [];
    }

    /**
     * Creates the store the way the app's first use of it does: an
     * unparsable stored value makes the unguarded `JSON.parse` throw, and
     * then there is no store.
     */
    static method Open(slot: Slot<VehicleDetails>) returns (store: Option<DetailStore>)
      ensures store.None? <==> slot.Unparsable?
      ensures store.Some? ==> fresh(store.value) && store.value.writes == []
      ensures store.Some? && slot.Absent? ==> store.value.details == EMPTY_DETAILS
      ensures store.Some? && slot.Holds? ==> store.value.details == slot.value
    {
      if slot.Unparsable? {
        return None;
      }
      var s := new DetailStore(slot);
      return Some(s);
    }

    method UpdateDetails(updates: DetailsUpdate)
      modifies this
      ensures details == Merge(old(details), updates)
      ensures writes == old(writes) + [details] && Synced()
    {
      details := Merge(details, updates);
      Persist();
    }

    method ResetVehicle()
      modifies this
      ensures details == EMPTY_DETAILS
      ensures forall f :: Get(details, f) == ""
      ensures writes == old(writes) + [details] && Synced()
    {
      details := VehicleDetails("", "", "", "", "", "", "");
      Persist();
    }

    method Persist()
      modifies this`writes
      ensures writes == old(writes) + [details] && Synced()
    {
      writes := writes + [details];
    }
  }
}
