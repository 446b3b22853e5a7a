/** The documents the dashboards read from the REST API, as far as the modelled code looks at them. */
module Records {

  /** A daily wellness log entry; `day` is the local calendar day of its `date`. */
  datatype Wellness = Wellness(day: int, mood: string, todoCompleted: bool)

  /** A complaint; the empty string stands for a missing field. */
  datatype Complaint = Complaint(id: string, complainerId: string, complainerRole: string, status: string)

  datatype Appointment = Appointment(id: string, patientId: string, status: string)

  /** A doctor account, as the admin overview counts it. */
  datatype Doctor = Doctor(id: string, approved: bool)

  function ComplainerId(c: Complaint): string { c.complainerId }
  function ComplainerRole(c: Complaint): string { c.complainerRole }
  function ComplaintStatus(c: Complaint): string { c.status }
  function AppointmentStatus(a: Appointment): string { a.status }
}
