/** Prescription orders: creating an order, checking an uploaded
    prescription document, matching and notifying pharmacies, and the two
    read endpoints. Nothing is stored: the handlers build their answers
    from the request. The fresh UUID, the clock reading and an unexpected
    exception (`fault`, its text) are inputs. */
module Orders {
  import opened Common
  import opened Users

  datatype OrderStatus =
    | Pending | PrescriptionUploaded | Verifying | Verified | Rejected
    | PaymentPending | Paid | Processing | Delivered | Cancelled

  function OrderStatusValue(s: OrderStatus): string {
    match s
    case Pending => "pending"
    case PrescriptionUploaded => "prescription_uploaded"
    case Verifying => "verifying"
    case Verified => "verified"
    case Rejected => "rejected"
    case PaymentPending => "payment_pending"
    case Paid => "paid"
    case Processing => "processing"
    case Delivered => "delivered"
    case Cancelled => "cancelled"
  }

  datatype PrescriptionStatus = PrescriptionPending | Valid | Invalid

  function PrescriptionStatusValue(s: PrescriptionStatus): string {
    match s
    case PrescriptionPending => "pending"
    case Valid => "valid"
    case Invalid => "invalid"
  }

  /** Distinct statuses have distinct wire values. */
  lemma StatusValuesDistinct(a: OrderStatus, b: OrderStatus, p: PrescriptionStatus, q: PrescriptionStatus)
    ensures OrderStatusValue(a) == OrderStatusValue(b) ==> a == b
    ensures PrescriptionStatusValue(p) == PrescriptionStatusValue(q) ==> p == q
  {
  }

  datatype MedicationItem = MedicationItem(medicationName: string, quantity: int, dosage: Option<string>)

  datatype CreateOrderRequest = CreateOrderRequest(userId: string, medications: seq<MedicationItem>, deliveryAddress: string)

  /** An order as returned; `createdAt` is the clock reading. */
  datatype OrderResponse = OrderResponse(
    orderId: string, userId: string, status: OrderStatus, prescriptionRequired: bool,
    prescriptionStatus: Option<PrescriptionStatus>, medications: seq<MedicationItem>,
    deliveryAddress: string, createdAt: int, message: string)

  // ---------------------------------------------------------------------
  // Order ids

  predicate IsLowerHexDigit(c: char) {
    '0' <= c <= '9' || 'a' <= c <= 'f'
  }

  predicate IsUpperHexDigit(c: char) {
    '0' <= c <= '9' || 'A' <= c <= 'F'
  }

  /** `uuid4().hex`: 32 lower-case hexadecimal digits. */
  predicate IsUuidHex(hex: string) {
    |hex| == 32 && forall i :: 0 <= i < |hex| ==> IsLowerHexDigit(hex[i])
  }

  /** `str.upper` on one character of the ASCII range. */
  function UpperChar(c: char): char {
    if 'a' <= c <= 'z' then (c as int - 'a' as int + 'A' as int) as char else c
  }

  /** `s.upper()` for ASCII text, such as the hex digits of a UUID. */
  function Upper(s: string): (r: string)
    ensures |r| == |s| && forall i :: 0 <= i < |s| ==> r[i] == UpperChar(s[i])
  {
    if s == [] then [] else [UpperChar(s[0])] + Upper(s[1..])
  }

  /** `f"ORD_{uuid.uuid4().hex[:12].upper()}"`: "ORD_" and twelve upper-case
      hexadecimal digits, one for each of the first twelve of the UUID. */
  function OrderId(hex: string): (id: string)
    requires IsUuidHex(hex)
    ensures |id| == 16 && id[..4] == "ORD_"
    ensures forall i :: 4 <= i < 16 ==> IsUpperHexDigit(id[i]) && id[i] == UpperChar(hex[i - 4])
  {
    "ORD_" + Upper(hex[..12])
  }

  /** Two UUIDs give the same order id only when their first twelve digits
      agree: ids are as unique as that prefix. */
  lemma OrderIdInjective(a: string, b: string)
    requires IsUuidHex(a) && IsUuidHex(b)
    ensures OrderId(a) == OrderId(b) <==> a[..12] == b[..12]
  {
    if OrderId(a) == OrderId(b) {
      forall i | 0 <= i < 12 ensures a[i] == b[i] {
        assert OrderId(a)[i + 4] == OrderId(b)[i + 4];
      }
    }
  }

  // ---------------------------------------------------------------------
  // Creating an order

  /** `create_order`: a pending order that needs a prescription, with the
      request's user, medications and address copied unchanged. */
  function CreateOrder(req: CreateOrderRequest, hex: string, now: int, fault: Option<string>)
    : (r: Result<OrderResponse, HttpError>)
    requires IsUuidHex(hex)
    ensures fault.Some? <==> r.Err?
    ensures r.Err? ==> r.error == HttpError(500, "Failed to create order: " + fault.value)
    ensures r.Ok? ==> && r.value.orderId == OrderId(hex)
                      && r.value.status == Pending
                      && r.value.prescriptionRequired
                      && r.value.prescriptionStatus == Some(PrescriptionPending)
                      && r.value.userId == req.userId
                      && r.value.medications == req.medications
                      && r.value.deliveryAddress == req.deliveryAddress
                      && r.value.createdAt == now
                      && r.value.message == "Order created successfully"
  {
    if fault.Some? then Err(HttpError(500, "Failed to create order: " + fault.value))
    else
      var requiresPrescription := true;
      Ok(OrderResponse(OrderId(hex), req.userId, Pending, requiresPrescription,
                       if requiresPrescription then Some(PrescriptionPending) else None,
                       req.medications, req.deliveryAddress, now, "Order created successfully"))
  }

  // ---------------------------------------------------------------------
  // Prescription documents

  const AllowedTypes := ["image/jpeg", "image/png", "application/pdf"]
  const InvalidTypeReason := "Invalid file type. Only JPEG, PNG, and PDF allowed"

  datatype ExtractedData = ExtractedData(doctorName: string, prescriptionDate: string, medicationsFound: seq<string>)

  datatype Verification = Accepted(extracted: ExtractedData) | Refused(reason: string)

  /** `verify_prescription_document`: only the content type is checked;
      `today` is the clock reading in ISO form. */
  function VerifyDocument(contentType: string, today: string): (v: Verification)
    ensures v.Accepted? <==> contentType in AllowedTypes
    ensures v.Refused? ==> v.reason == InvalidTypeReason
    ensures v.Accepted? ==> v.extracted.prescriptionDate == today
  {
    if contentType !in AllowedTypes then Refused(InvalidTypeReason)
    else Accepted(ExtractedData("Dr. Sample", today, ["Medication A", "Medication B"]))
  }

  /** A matched pharmacy; its distance is in tenths of a kilometre. */
  datatype Pharmacy = Pharmacy(pharmacyId: string, name: string, distanceTenthsKm: nat, hasAllItems: bool)

  /** `find_matching_pharmacies`: the same two pharmacies whatever is asked. */
  function FindMatchingPharmacies(medications: seq<MedicationItem>, location: string): (r: seq<Pharmacy>)
    ensures |r| == 2 && r[0].pharmacyId == "ph_001" && r[1].pharmacyId == "ph_002"
    ensures forall i :: 0 <= i < |r| ==> r[i].hasAllItems
  {
    [Pharmacy("ph_001", "City Pharmacy", 25, true), Pharmacy("ph_002", "MedPlus Store", 31, true)]
  }

  lemma MatchingIgnoresItsArguments(m1: seq<MedicationItem>, l1: string, m2: seq<MedicationItem>, l2: string)
    ensures FindMatchingPharmacies(m1, l1) == FindMatchingPharmacies(m2, l2)
  {
  }

  function NotificationLine(pharmacyId: string, orderId: string): string {
    "Notifying pharmacy " + pharmacyId + " about order " + orderId
  }

  /** `notify_pharmacies`: one notification per pharmacy, in list order. */
  method NotifyPharmacies(orderId: string, pharmacies: seq<Pharmacy>) returns (sent: seq<string>)
    ensures |sent| == |pharmacies|
    ensures forall i :: 0 <= i < |pharmacies| ==> sent[i] == NotificationLine(pharmacies[i].pharmacyId, orderId)
  {
    sent := [];
    for k := 0 to |pharmacies|
      invariant |sent| == k
      invariant forall i :: 0 <= i < k ==> sent[i] == NotificationLine(pharmacies[i].pharmacyId, orderId)
    {
      sent := sent + [NotificationLine(pharmacies[k].pharmacyId, orderId)];
    }
  }

  /** The answer to a prescription upload. */
  datatype UploadResult =
    | UploadVerified(orderId: string, status: string, prescriptionStatus: string,
                     matchedPharmacies: nat, message: string, nextStep: string)
    | UploadRejected(orderId: string, status: string, prescriptionStatus: string,
                     reason: string, message: string)

  /** `upload_prescription`: an accepted document answers "verified" with
      the number of matched pharmacies and queues their notification; a
      refused one answers "rejected" with the verifier's reason and
      notifies no one. */
  method UploadPrescription(orderId: string, contentType: string, today: string, fault: Option<string>)
    returns (r: Result<UploadResult, HttpError>, notifications: seq<string>)
    ensures fault.Some? ==> r == Err(HttpError(500, "Failed to process prescription: " + fault.value)) && notifications == []
    ensures fault.None? && contentType in AllowedTypes ==>
              && r == Ok(UploadVerified(orderId, OrderStatusValue(Verified), PrescriptionStatusValue(Valid), 2,
                           "Prescription verified successfully. Pharmacies have been notified.", "payment"))
              && notifications == [NotificationLine("ph_001", orderId), NotificationLine("ph_002", orderId)]
    ensures fault.None? && contentType !in AllowedTypes ==>
              && r == Ok(UploadRejected(orderId, OrderStatusValue(Rejected), PrescriptionStatusValue(Invalid),
                           InvalidTypeReason, "Prescription verification failed. Please upload a valid prescription."))
              && notifications == []
  {
    notifications := [];
    if fault.Some? {
      r := Err(HttpError(500, "Failed to process prescription: " + fault.value));
      return;
    }
    var verification := VerifyDocument(contentType, today);
    if verification.Accepted? {
      var pharmacies := FindMatchingPharmacies([], "Kano");
      notifications := NotifyPharmacies(orderId, pharmacies);
      r := Ok(UploadVerified(orderId, "verified", "valid", |pharmacies|,
                "Prescription verified successfully. Pharmacies have been notified.", "payment"));
    } else {
      r := Ok(UploadRejected(orderId, "rejected", "invalid", verification.reason,
                "Prescription verification failed. Please upload a valid prescription."));
    }
  }

  // ---------------------------------------------------------------------
  // Reading orders

  /** `get_order`: a fixed sample order under the requested id. */
  function GetOrder(orderId: string, now: int): (r: OrderResponse)
    ensures r.orderId == orderId && r.status == Pending && r.prescriptionRequired
    ensures r.prescriptionStatus == Some(PrescriptionPending)
    ensures r.userId == "user_123" && r.medications == [MedicationItem("Sample Med", 1, None)]
    ensures r.deliveryAddress == "123 Sample St" && r.createdAt == now && r.message == "Order details retrieved"
  {
    OrderResponse(orderId, "user_123", Pending, true, Some(PrescriptionPending),
                  [MedicationItem("Sample Med", 1, None)], "123 Sample St", now, "Order details retrieved")
  }

  datatype UserOrders = UserOrders(userId: string, totalOrders: nat, orders: seq<OrderResponse>)

  /** `get_user_orders`: no orders, whatever the user and the page. */
  function GetUserOrders(userId: string, skip: int, limit: int): (r: UserOrders)
    ensures r.userId == userId && r.totalOrders == 0 && r.orders == []
    ensures r.totalOrders == |r.orders|
  {
    UserOrders(userId, 0, [])
  }
}
