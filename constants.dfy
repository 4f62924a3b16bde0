/** The default profile and the chip lists offered by the profile editor (constants.ts). */
module Constants {
  import opened Types

  /** The profile used until one is saved: age 30, 'male', no conditions, allergies or medications. */
  const DefaultProfile: UserProfile := UserProfile(30, "male", [], [], [])

  /** The condition chips, in display order. */
  const CommonConditions: seq<string> := [
    "High Blood Pressure",
    "Diabetes Type 1",
    "Diabetes Type 2",
    "Asthma",
    "Heart Disease",
    "Pregnancy",
    "Kidney Disease",
    "Liver Disease",
    "Acid Reflux"
  ]

  /** The allergy chips, in display order. */
  const CommonAllergies: seq<string> := [
    "Penicillin",
    "Sulfa Drugs",
    "Aspirin",
    "Peanuts",
    "Latex",
    "Ibuprofen (NSAIDs)"
  ]
}
