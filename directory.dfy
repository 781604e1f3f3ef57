/**
 * The registrant directory (`mockRecords`), read by the events page to
 * resolve scans and by the records page to list, filter and page. Its
 * contents come from a module that is not part of this model, so every
 * operation takes it as a sequence parameter.
 */
module Directory {

  /** One registrant, with the fields the two pages read. */
  datatype Registrant = Registrant(
    id: int,
    name: string,
    kind: string,          // `type`: "Farmer" or "Fisherfolk"
    barangay: string,
    contactNumber: string,
    cropType: string,
    yearsExperience: int,
    createdAt: string,
    status: string)        // "Active" or "Inactive"
}
