/**
 * The records the clinic server keeps and sends, in the shape the pages
 * receive them as JSON (field `medicine_id` becomes `medicineId`, and so on).
 */
module Records {

  /** A row of MEDICINES; the server finds a medicine by its position, which equals `id`. */
  datatype Medicine = Medicine(id: int, name: string, stock: int, price: int)

  /** A row of DOCTORS, with the time slots the doctor offers, in the doctor's order. */
  datatype Doctor = Doctor(id: int, name: string, specialty: string, availableSlots: seq<string>)

  /** `{medicine_id, quantity}`: a prescription line, a purchase item and a cart line alike. */
  datatype Item = Item(medicineId: int, quantity: int)

  /** A row of APPOINTMENTS; symptoms and prescription are empty until a consultation fills them. */
  datatype Appointment = Appointment(
    id: int, userId: int, doctorId: int, timeSlot: string,
    symptoms: seq<string>, prescription: seq<Item>)

  /** The answer of a consultation: a disease label and the prescription written for it. */
  datatype Diagnosis = Diagnosis(disease: string, prescription: seq<Item>)

  /** A medicine row copied out of MEDICINES with the prescribed `quantity` added to it. */
  datatype PrescribedMedicine = PrescribedMedicine(medicine: Medicine, quantity: int)

  /** A doctor's ratings reduced to their count and their sum (the average is their quotient). */
  datatype RatingSummary = RatingSummary(numRatings: nat, ratingSum: int)

  /** The sales report: (medicine name, revenue) pairs and the total revenue. */
  datatype SalesReport = SalesReport(medicineSales: seq<(string, int)>, totalRevenue: int)
}
