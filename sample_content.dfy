/**
 * The content a fresh editor starts from (`defaultContent`): the December 2025
 * issue of Port Pulse, with every image empty, cover mode, opacity 0.15 and three
 * quick-link slots.
 */
module SampleContent {
  import opened Wrappers
  import opened Content

  const LeadershipBody: string :=
    "\n<p>Sri Lanka is going through a difficult time with the ongoing storms and flooding affecting many families and communities. As your CEO — but more importantly, as someone who understands how unpredictable life can be — I want you to know that your safety and well-being come before everything else.</p>\n<p>Please prioritise your health, your family, your home, and your personal security over work obligations. If you are affected in any way — from transportation challenges to property damage — speak to your supervisor or HR immediately. We are here to support you, not add pressure.</p>\n<p>Despite these challenges, I continue to be inspired by the resilience, compassion, and unity shown by our Port City BPO family. The way you support each other, step up for clients, and maintain professionalism during uncertainty makes our organisation stand out.</p>\n<p>As we enter the festive season, I hope you find moments of peace and celebration amidst the chaos. May this Christmas bring you rest, warmth, and renewed hope for the year ahead.</p>\n<p>On behalf of the entire leadership team, thank you for the heart you bring to this company.</p>\n"

  const ImportantAnnouncements: string :=
    "\n<ul>\n  <li><strong>New Optional Courses on CALM:</strong> Two new practical guides have been added: <em>Airport Arrival Guide</em> and <em>EPF/ETF Process Guide</em>.</li>\n  <li><strong>Attendance in December:</strong> Due to weather-related disruptions, grace periods and flexible reporting are in place. Please coordinate with your supervisors.</li>\n  <li><strong>Transport Support:</strong> If your route is affected by flooding, HR will assist with arrangements where possible.</li>\n</ul>\n"

  const ComplianceReminders: string :=
    "\n<ul>\n  <li><strong>Do not purchase, possess, smoke, or distribute vapes or foreign cigarettes.</strong> These items are restricted under Sri Lankan law and can lead to legal and disciplinary action.</li>\n  <li><strong>Do not import vapes, e-cigarette liquids, foreign tobacco products, or related equipment.</strong> Even “for personal use” is not permitted.</li>\n  <li>When unsure, ask Compliance before bringing any item into the country.</li>\n</ul>\n"

  const SafetyReminders: string :=
    "\n<ul>\n  <li>Avoid all non-essential travel during red or amber warnings.</li>\n  <li>Never walk or drive through flooded streets — even shallow water can be dangerous.</li>\n  <li>Keep devices charged and store important documents in waterproof bags.</li>\n  <li>Make sure your emergency contacts are updated with your supervisor.</li>\n  <li>Report your safety status to your team lead daily during severe weather periods.</li>\n</ul>\n"

  const SpecialMessage: string :=
    "\n<p>The end of the year is a time of reflection, gratitude, and togetherness. Although the weather has disrupted many of our plans, the spirit of the season remains strong within our team.</p>\n<p>We encourage everyone to take a moment to unwind — whether it's sharing a meal with loved ones, participating in small acts of kindness, or simply resting at home.</p>\n<p>Wishing you joy, peace, and meaningful moments this Christmas. Let’s carry the same unity forward into the new year.</p>\n"

  const WinsAndShoutouts: string :=
    "\n<ul>\n  <li>The <strong>Training Team</strong> successfully onboarded 47 new staff members in November despite weather disruptions.</li>\n  <li><strong>Compliance Team</strong> cleared backlog of 163 cases with 100% accuracy.</li>\n  <li>Special appreciation to the <strong>Customer Experience Team</strong> for maintaining a 4.8/5 rating during peak hours.</li>\n  <li>Kudos to the <strong>Night Shift Ops Team</strong> for covering shifts during travel-blocked periods.</li>\n</ul>\n"

  const Csr: string :=
    "\n<h4>📌 Flood Relief Support – Gampaha District</h4>\n<p>Volunteers from our staff delivered emergency packs containing dry rations, medicine, and hygiene supplies to 42 affected families. Several team members personally joined the distribution effort during the long weekend.</p>\n<h4>📌 School Supplies Donation – Polonnaruwa</h4>\n<p>We contributed stationery packs to 120 students in rural schools who were facing financial difficulties. The smiles from the children were the highlight of the month and a reminder of the impact we can create together.</p>\n<p>More CSR events planned for January — stay tuned!</p>\n"

  const EmployeeEvents: string :=
    "\n<h4>🎄 Office Xmas Deco Day</h4>\n<p>Teams competed to decorate their pods with Christmas themes ranging from “Tropical Christmas” to “Santa’s Control Room”. Congratulations to Team Phoenix for winning first place!</p>\n<h4>🏆 November Fun Challenge – Step Count Edition</h4>\n<p>Over 160 employees participated, collectively clocking over 4.2 million steps in 30 days. Winners received gift vouchers and recognition on our social wall.</p>\n<p>More events coming up in Q1 2026 — including a sports day (weather permitting!).</p>\n"

  const UsefulInfo: string :=
    "\n<p><strong>Port City BPO (Pvt) Ltd.</strong><br/>\nLevel 6, Lotus Tower Commercial Wing,<br/>\nColombo, Sri Lanka</p>\n<p><strong>Key Contacts</strong><br/>\nYudesh – HR &amp; Admin: 077 xxx xxxx<br/>\nGehan – Operations Manager: 071 xxx xxxx<br/>\nSecurity &amp; Compliance Hotline: 011 xxx xxxx</p>\n"

  const DefaultContent: Content := Content(
    newsletterName := "Port Pulse",
    edition := "December 2025",
    issueTitle := "Storm Safety & Xmas Edition",
    issueName := "Dec 2025 — Storm & Xmas",
    logoUrl := "",
    leadershipTitle := "Standing Strong Together Through Storms, Challenges, and Celebrations",
    leadershipBodyHtml := LeadershipBody,
    importantAnnouncementsHtml := ImportantAnnouncements,
    complianceRemindersHtml := ComplianceReminders,
    safetyRemindersHtml := SafetyReminders,
    specialMessageHtml := SpecialMessage,
    winsAndShoutoutsHtml := WinsAndShoutouts,
    csrHtml := Csr,
    employeeEventsHtml := EmployeeEvents,
    usefulInfoHtml := UsefulInfo,
    quickLinks := Some([
      QuickLink("CALM Portal", "https://calm.example.com"),
      QuickLink("HR Support Desk", "https://forms.office.com/xxxx"),
      QuickLink("Emergency SOP", "https://intranet/portcity/emergency")
    ]),
    leadershipImage := "",
    complianceImage := "",
    csrImage1 := "",
    csrImage2 := "",
    eventsImage1 := "",
    eventsImage2 := "",
    backgroundImage := "",
    backgroundMode := "cover",
    backgroundOpacity := Some(0.15))
}
