/** The `userType` values the backend assigns, as the dashboard compares them. */
module Roles {
  const Student: string := "Student"
  const FreeSpender: string := "Free_Spender"
  const BusinessOwner: string := "Business_Owner"
  const FinanciallyInclined: string := "Financially_Inclined"

  /** One of the four archetypes the dashboard has a layout for. */
  predicate IsKnown(userType: string) {
    userType == Student || userType == FreeSpender || userType == BusinessOwner
    || userType == FinanciallyInclined
  }
}
