/** The mock postings every component starts from (constants.ts). */
module Seed {
  import opened Types

  const P1 := Posting(
    "p1", "Nexus Labs", "Product Design Intern",
    "Help us shape the future of Web3 interfaces. You will work directly with our senior designers on production-ready Figma files.",
    "123 Innovation Drive, Tech District", 14.5995, 120.9842,
    ["Figma", "UI/UX", "Prototyping"], 2, Active, Design)

  const P2 := Posting(
    "p2", "EcoStream Energy", "Systems Engineering Intern",
    "Work on renewable energy grid optimization systems using IoT and data analysis.",
    "45 Green St., Emerald District", 14.6333, 121.0333,
    ["Python", "IoT", "Data Science"], 1, Active, Engineering)

  const P3 := Posting(
    "p3", "Vivid Media", "Marketing & SEO Intern",
    "Join our high-growth agency to manage social campaigns and optimize search visibility.",
    "88 Creative Blvd, Media City", 14.5547, 121.0244,
    ["SEO", "Content Strategy", "Social Media"], 4, Active, Marketing)

  const P4 := Posting(
    "p4", "SteelCore Fintech", "Blockchain Developer Trainee",
    "Learn to build smart contracts and secure financial gateways on Ethereum.",
    "210 Secure Way, Financial Park", 14.5800, 121.0600,
    ["Solidity", "JavaScript", "Security"], 3, Active, Tech)

  /** `MOCK_POSTINGS`, in declaration order. */
  const MockPostings: seq<Posting> := [P1, P2, P3, P4]
}
