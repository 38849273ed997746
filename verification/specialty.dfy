/** Disease-to-specialist resolution (app.py:135-145, web/app.py:40-47 and 83).
    Both front-ends carry the same fourteen entries. Keys are the classifier's
    labels verbatim: the hypertension label ends in a space. */
module Specialty {

  const Fallback := "General Practitioner"

  const Specialists: map<string, string> := map[
    "Fungal infection" := "Dermatologist",
    "Allergy" := "Allergist",
    "GERD" := "Gastroenterologist",
    "Acne" := "Dermatologist",
    "Pneumonia" := "Pulmonologist",
    "Jaundice" := "Gastroenterologist",
    "Migraine" := "Neurologist",
    "Hypertension " := "Cardiologist",
    "Heart attack" := "Cardiologist",
    "Paralysis (brain hemorrhage)" := "Neurologist",
    "Chicken pox" := "Dermatologist",
    "Malaria" := Fallback,
    "Dengue" := Fallback,
    "Typhoid" := Fallback
  ]

  /** Every specialist category the pipeline can ever search for. */
  const Categories: set<string> := {
    "Dermatologist", "Allergist", "Gastroenterologist", "Pulmonologist",
    "Neurologist", "Cardiologist", Fallback
  }

  /** `specialty_map.get(prediction, 'General Practitioner')`: total, never empty. */
  function Resolve(disease: string): (specialist: string)
    ensures disease in Specialists ==> specialist == Specialists[disease]
    ensures disease !in Specialists ==> specialist == Fallback
    ensures specialist in Categories
    ensures specialist != ""
  {
    if disease in Specialists then Specialists[disease] else Fallback
  }

  /** The label without its trailing space is not a key and falls back. */
  lemma HypertensionNeedsTrailingSpace()
    ensures Resolve("Hypertension ") == "Cardiologist"
    ensures Resolve("Hypertension") == Fallback
  {
  }

  /** One mapped and one unmapped label. */
  lemma ResolveExamples()
    ensures Resolve("Migraine") == "Neurologist"
    ensures Resolve("Fungal infection") == "Dermatologist"
    ensures Resolve("Common Cold") == Fallback
  {
  }
}
