/**
 Configured literals (constants.ts): the administrator's uid, the seed
 settings, and the catalogue of categories and packages.
 */
module Constants {
  import opened SeqUtil
  import opened Types

  /** The uid that is given the admin role at first login and that opens the admin console. */
  const AdminUid: string := "12345678"

  const InitialMarquee: string :=
    "Welcome to JIO Store! \U{1F48E} Instant Top-Up available 24/7. Use code WELCOME for a bonus on your first deposit! \U{1F680}"

  const DefaultPaymentNumbers: PaymentNumbers :=
    PaymentNumbers("01700000000", "01800000000", "01900000000", "1210169527")

  /** What `getSettings` returns while nothing has been saved. */
  const DefaultSettings: AppSettings := AppSettings(InitialMarquee, DefaultPaymentNumbers)

  const Categories: seq<Category> := [
    Category("ff-id", "Free Fire UID", FreeFire,
      "https://images.unsplash.com/photo-1580234797602-22c37b2a6230?q=80&w=800&auto=format&fit=crop"),
    Category("ff-weekly", "Weekly/Monthly", FreeFire,
      "https://images.unsplash.com/photo-1542751371-adc38448a05e?q=80&w=800&auto=format&fit=crop"),
    Category("pubg-uc", "PUBG UC", Pubg,
      "https://images.unsplash.com/photo-1593305841991-05c297ba4575?q=80&w=800&auto=format&fit=crop"),
    Category("netflix-sub", "Netflix Premium", Subscription,
      "https://images.unsplash.com/photo-1522869635100-9f4c5e86aa37?q=80&w=800&auto=format&fit=crop")
  ]

  const Packages: seq<Package> := [
    Package("ff1", "ff-id", "115 Diamonds", 85, None, Some("POPULAR")),
    Package("ff2", "ff-id", "240 Diamonds", 175, None, None),
    Package("ff3", "ff-id", "610 Diamonds", 430, None, Some("HOT")),
    Package("ff4", "ff-id", "1240 Diamonds", 850, None, None),
    Package("ff5", "ff-id", "2530 Diamonds", 1700, None, None),
    Package("fw1", "ff-weekly", "Weekly Membership", 160, None, Some("HOT")),
    Package("fm1", "ff-weekly", "Monthly Membership", 750, None, None),
    Package("p1", "pubg-uc", "60 UC", 95, None, None),
    Package("p2", "pubg-uc", "325 UC", 450, None, Some("POPULAR")),
    Package("p3", "pubg-uc", "660 UC", 880, None, None)
  ]
}
